/** What a validation report means: which ledgers are clean, that the order of the records does not matter, and
    how the counters add up. */
module LedgerMeaning {
  import opened Basics
  import opened Records
  import opened Ledger
  import Ranking

  // ------------------------------------------------------------------ clean ledgers

  predicate WellFormed(r: Rec) {
    match r.k
    case Submit => r.id != "" && r.sha != "" && r.len > 0 && !r.res.OtherResult?
    case ProcStart => r.id != "" && r.call != ""
    case ProcEnd => r.id != "" && r.call != ""
    case Final => r.id != "" && r.err == ""
    case Check => r.err == "" && r.pass == Some(true)
    case Event => true
    case OtherKind => false
  }

  ghost predicate HasSubmit(recs: seq<Rec>, id: string) {
    exists s :: s in recs && s.k.Submit? && s.id == id
  }

  ghost predicate HasAnswer(recs: seq<Rec>, id: string, res: Result) {
    exists s :: s in recs && s.k.Submit? && s.id == id && s.res == res
  }

  ghost predicate HasFinal(recs: seq<Rec>, id: string, state: Seen) {
    exists f :: f in recs && f.k.Final? && f.id == id && f.state == state
  }

  predicate StartOf(r: Rec, id: string) {
    r.k.ProcStart? && r.id == id
  }

  predicate EndOf(r: Rec, id: string) {
    r.k.ProcEnd? && r.id == id
  }

  // Where the calls of id start.
  function StartsAt(recs: seq<Rec>, id: string): set<int> {
    set i | 0 <= i < |recs| && StartOf(recs[i], id)
  }

  // ... and where those start that never end.
  function UnendedAt(recs: seq<Rec>, id: string): set<int> {
    set i | i in StartsAt(recs, id) && !(exists e :: e in recs && EndOf(e, id) && e.call == recs[i].call)
  }

  // No call of id ends twice.
  ghost predicate EndsOnce(recs: seq<Rec>, id: string) {
    forall i, j :: 0 <= i < j < |recs| && EndOf(recs[i], id) && EndOf(recs[j], id) ==> recs[i].call != recs[j].call
  }

  // The calls of one id are as the scenario expects.
  ghost predicate CallsAsExpected(recs: seq<Rec>, exp: Expect, id: string) {
    var n, open := |StartsAt(recs, id)|, |UnendedAt(recs, id)|;
    && (forall e :: e in recs && EndOf(e, id) ==> exists s :: s in recs && StartOf(s, id) && s.call == e.call)
    && (open > 0 ==> exp.allowUnfinished)
    && (if id in exp.expectCalls then n == exp.expectCalls[id]
        else n <= 1 || (exp.allowRedelivery && (exp.redeliveryNeedsUnfinished ==> open >= n - 1)))
    && (n > 0 ==> id !in exp.mustNotProcess && id !in exp.expectedLost)
    && (n > 0 ==> HasAnswer(recs, id, Accepted) || HasAnswer(recs, id, Uncertain))
  }

  // What was accepted has run and is confirmed; nothing else has a final state.
  ghost predicate EndsAsExpected(recs: seq<Rec>, exp: Expect, id: string) {
    && (HasAnswer(recs, id, Accepted) && id !in exp.expectedLost ==>
          && (id !in exp.mustNotProcess ==> StartsAt(recs, id) != {})
          && HasFinal(recs, id, Want(id, exp)) && !HasFinal(recs, id, DigestMismatch))
    && ((exists f :: f in recs && f.k.Final? && f.id == id)
       ==> HasAnswer(recs, id, Accepted) || HasAnswer(recs, id, Uncertain))
  }

  /** A clean ledger, without reference to any pass of the validator. */
  ghost predicate Clean(recs: seq<Rec>, exp: Expect) {
    && (forall r :: r in recs ==> WellFormed(r))
    && (exists r :: r in recs && r.k.Submit?)
    && (forall r, s :: r in recs && s in recs && r.k.Submit? && s.k.Submit? && r.id == s.id ==> r.sha == s.sha)
    && (forall name :: name in exp.requiredChecks ==> exists r :: r in recs && r.k.Check? && r.name == name)
    && (forall r :: r in recs && IsProc(r) ==> HasSubmit(recs, r.id))
    && (forall r :: r in recs && r.k.ProcStart? ==>
          && r.pok == Some(true) && r.len == LastLen(recs, r.id)
          && forall s :: s in recs && s.k.Submit? && s.id == r.id ==> s.sha == r.sha)
    && (forall id :: EndsOnce(recs, id))
    && (forall id :: id in exp.expectCalls ==> HasSubmit(recs, id))
    && (forall id :: CallsAsExpected(recs, exp, id) && EndsAsExpected(recs, exp, id))
  }

  // In a well-formed ledger the validator's tables say what the records say.
  lemma SubmitReadings(recs: seq<Rec>, id: string)
    requires forall r :: r in recs ==> WellFormed(r)
    ensures Submitted(recs, id) <==> HasSubmit(recs, id)
    ensures forall x :: x in Shas(recs, id) <==> exists s :: s in recs && s.k.Submit? && s.id == id && s.sha == x
  {
    SelectIn(recs, Submits(id));
    hide Select, Count;
  }

  lemma AnswerReadings(recs: seq<Rec>, id: string, res: Result)
    requires forall r :: r in recs ==> WellFormed(r)
    ensures Any(recs, Answers(id, res)) <==> HasAnswer(recs, id, res)
  {
    SelectIn(recs, Answers(id, res));
    hide Select, Count;
  }

  lemma FinalReadings(recs: seq<Rec>, id: string, state: Seen)
    requires forall r :: r in recs ==> WellFormed(r)
    ensures Any(Select(recs, Finals(id)), Showing(state)) <==> HasFinal(recs, id, state)
    ensures Select(recs, Finals(id)) != [] <==> exists f :: f in recs && f.k.Final? && f.id == id
  {
    var finals := Select(recs, Finals(id));
    SelectIn(recs, Finals(id));
    SelectIn(finals, Showing(state));
    hide Select, Count;
    forall f ensures f in finals <==> f in recs && f.k.Final? && f.id == id {
      assert f in recs ==> WellFormed(f);
    }
    hide WellFormed, Any;
    assert finals != [] ==> finals[0] in finals;
  }

  lemma Readings(recs: seq<Rec>, id: string)
    requires forall r :: r in recs ==> WellFormed(r)
    ensures Submitted(recs, id) <==> HasSubmit(recs, id)
    ensures forall res :: Any(recs, Answers(id, res)) <==> HasAnswer(recs, id, res)
    ensures forall state :: Any(Select(recs, Finals(id)), Showing(state)) <==> HasFinal(recs, id, state)
    ensures Select(recs, Finals(id)) != [] <==> exists f :: f in recs && f.k.Final? && f.id == id
    ensures forall x :: x in Shas(recs, id) <==> exists s :: s in recs && s.k.Submit? && s.id == id && s.sha == x
  {
    SubmitReadings(recs, id);
    FinalReadings(recs, id, Done);
    hide Submitted, HasSubmit, HasFinal, HasAnswer, Any, Select, Shas;
    forall res ensures Any(recs, Answers(id, res)) <==> HasAnswer(recs, id, res) {
      AnswerReadings(recs, id, res);
    }
    forall state ensures Any(Select(recs, Finals(id)), Showing(state)) <==> HasFinal(recs, id, state) {
      FinalReadings(recs, id, state);
    }
  }

  lemma SomeAnswer(recs: seq<Rec>, id: string)
    requires forall r :: r in recs ==> WellFormed(r)
    ensures HasSubmit(recs, id)
            <==> HasAnswer(recs, id, Accepted) || HasAnswer(recs, id, Rejected) || HasAnswer(recs, id, Uncertain)
  {
    if HasSubmit(recs, id) {
      var s :| s in recs && s.k.Submit? && s.id == id;
      assert HasAnswer(recs, id, s.res);
    }
  }

  lemma StartsRead(recs: seq<Rec>, id: string)
    requires forall r :: r in recs ==> WellFormed(r)
    ensures Count(recs, Starts(id)) == |StartsAt(recs, id)|
  {
    var f := Starts(id);
    CountTwice(recs, f, f);
    SelectedAgain(recs, f);
    forall i | 0 <= i < |recs| ensures Fits(f, recs[i]) <==> StartOf(recs[i], id) {
      assert WellFormed(recs[i]);
    }
    assert Places(recs, f, f) == StartsAt(recs, id);
  }

  lemma UnendedRead(recs: seq<Rec>, id: string)
    requires forall r :: r in recs ==> WellFormed(r)
    ensures Count(Select(recs, Starts(id)), Open(Calls(Select(recs, Ends(id))))) == |UnendedAt(recs, id)|
  {
    var f, g := Starts(id), Open(Calls(Select(recs, Ends(id))));
    CountTwice(recs, f, g);
    SelectIn(recs, Ends(id));
    hide Select, Count;
    forall e ensures e in Select(recs, Ends(id)) <==> e in recs && EndOf(e, id) {
      assert e in recs ==> WellFormed(e);
    }
    forall i | 0 <= i < |recs| ensures Fits(f, recs[i]) <==> StartOf(recs[i], id) {
      assert WellFormed(recs[i]);
    }
    assert Places(recs, f, g) == UnendedAt(recs, id);
  }

  // Where this call of id ends.
  function CallEndsAt(recs: seq<Rec>, id: string, call: string): set<int> {
    set i | 0 <= i < |recs| && EndOf(recs[i], id) && recs[i].call == call
  }

  lemma CallEndsRead(recs: seq<Rec>, id: string, call: string)
    requires forall r :: r in recs ==> WellFormed(r)
    ensures Count(Select(recs, Ends(id)), Called(call)) == |CallEndsAt(recs, id, call)|
  {
    forall i | 0 <= i < |recs| ensures Fits(Ends(id), recs[i]) <==> EndOf(recs[i], id) {
      assert WellFormed(recs[i]);
    }
    CountTwice(recs, Ends(id), Called(call));
    hide Select, Count;
    assert Places(recs, Ends(id), Called(call)) == CallEndsAt(recs, id, call);
  }

  lemma EndsRead(recs: seq<Rec>, id: string)
    requires forall r :: r in recs ==> WellFormed(r)
    ensures EndedTwice(recs, id) <==> !EndsOnce(recs, id)
  {
    hide Select, Count, WellFormed;
    forall call ensures Count(Select(recs, Ends(id)), Called(call)) == |CallEndsAt(recs, id, call)| {
      CallEndsRead(recs, id, call);
    }
    if call :| |CallEndsAt(recs, id, call)| > 1 {
      var i, j := TwoOf(CallEndsAt(recs, id, call));
      assert i < j || j < i;
    }
    if i, j :| 0 <= i < j < |recs| && EndOf(recs[i], id) && EndOf(recs[j], id) && recs[i].call == recs[j].call {
      var ends := CallEndsAt(recs, id, recs[i].call);
      assert ends == {i, j} + (ends - {i, j});
    }
  }

  // The tables of a submitted id hold its starts and the calls that end.
  lemma InfoOfSubmitted(recs: seq<Rec>, id: string)
    requires Submitted(recs, id)
    ensures Info(recs, id).starts == Select(recs, Starts(id)) && Info(recs, id).ends == Calls(Select(recs, Ends(id)))
  {
    ShasOfSubmitted(recs, id);
    hide Select, Shas;
  }

  lemma StartsAndEnds(recs: seq<Rec>, id: string)
    requires forall r :: r in recs ==> WellFormed(r)
    ensures forall r :: r in Select(recs, Starts(id)) <==> r in recs && StartOf(r, id)
    ensures forall r :: r in Select(recs, Ends(id)) <==> r in recs && EndOf(r, id)
  {
    SelectIn(recs, Starts(id));
    SelectIn(recs, Ends(id));
    hide Select;
    forall r | r in recs ensures Fits(Starts(id), r) <==> StartOf(r, id)
                         ensures Fits(Ends(id), r) <==> EndOf(r, id)
    {
      assert WellFormed(r);
    }
  }

  // The calls of a submitted id, as recorded.
  lemma CallReadings(recs: seq<Rec>, id: string)
    requires (forall r :: r in recs ==> WellFormed(r)) && Submitted(recs, id)
    ensures |Info(recs, id).starts| == |StartsAt(recs, id)| && Opened(Info(recs, id)) == |UnendedAt(recs, id)|
    ensures !Orphaned(Info(recs, id)) <==>
      forall e :: e in recs && EndOf(e, id) ==> exists s :: s in recs && StartOf(s, id) && s.call == e.call
  {
    hide Select, Info, Submitted, StartsAt, UnendedAt, WellFormed, Any;
    StartsRead(recs, id);
    UnendedRead(recs, id);
    InfoOfSubmitted(recs, id);
    StartsAndEnds(recs, id);
    var x, ends := Info(recs, id), Select(recs, Ends(id));
    forall c ensures Any(x.starts, Called(c)) <==> exists s :: s in x.starts && s.call == c {
      CalledIn(x.starts, c);
    }
    assert forall e :: e in ends ==> e.call in x.ends;
  }

  lemma CalledIn(starts: seq<Rec>, c: string)
    ensures Any(starts, Called(c)) <==> exists s :: s in starts && s.call == c
  {
    SelectIn(starts, Called(c));
    hide Select, Count;
  }

  lemma FlagsRead(recs: seq<Rec>, id: string)
    requires forall r :: r in recs ==> WellFormed(r)
    ensures var x := Info(recs, id);
      && (x.accepted <==> HasAnswer(recs, id, Accepted)) && (x.rejected <==> HasAnswer(recs, id, Rejected))
      && (x.uncert <==> HasAnswer(recs, id, Uncertain))
      && (forall state :: Any(x.finals, Showing(state)) <==> HasFinal(recs, id, state))
      && (x.finals != [] <==> exists f :: f in recs && f.k.Final? && f.id == id)
  {
    Readings(recs, id);
    hide Any, HasAnswer, HasFinal, Select;
  }

  // An id without a fault.
  predicate Sound(x: IdInfo, id: string, exp: Expect) {
    && !Orphaned(x) && (Opened(x) > 0 ==> exp.allowUnfinished)
    && (if id in exp.expectCalls then |x.starts| == exp.expectCalls[id]
        else
          |x.starts| <= 1
          || (exp.allowRedelivery && (exp.redeliveryNeedsUnfinished ==> Opened(x) >= |x.starts| - 1)))
    && (|x.starts| > 0 ==>
          id !in exp.mustNotProcess && id !in exp.expectedLost && (x.accepted || x.uncert || !x.rejected))
    && (x.accepted && id !in exp.expectedLost ==>
          && (id !in exp.mustNotProcess ==> |x.starts| > 0)
          && Any(x.finals, Showing(Want(id, exp))) && !Any(x.finals, Showing(DigestMismatch)))
    && (x.finals != [] ==> x.accepted || x.uncert)
  }

  lemma SoundHasNoFault(x: IdInfo, id: string, exp: Expect, code: Code)
    requires Sound(x, id, exp)
    ensures !Fault(x, id, exp, code)
  {
    hide Any, Opened, Orphaned, Want;
  }

  lemma FaultlessIsSound(x: IdInfo, id: string, exp: Expect)
    requires forall code :: !Fault(x, id, exp, code)
    ensures Sound(x, id, exp)
  {
    hide Any, Opened, Orphaned, Want;
    assert !Fault(x, id, exp, ProcEndWithoutStart);
    assert !Fault(x, id, exp, StartWithoutEnd);
    assert !Fault(x, id, exp, CallCountMismatch);
    assert !Fault(x, id, exp, UnexpectedDuplicate);
    assert !Fault(x, id, exp, UnexplainedRedelivery);
    assert !Fault(x, id, exp, ProcessForbidden);
    assert !Fault(x, id, exp, RejectedButProcessed);
    assert !Fault(x, id, exp, AcceptedNotProcessed);
    assert !Fault(x, id, exp, TombstoneDigestMismatch);
    assert !Fault(x, id, exp, AcceptedNotConfirmed);
    assert !Fault(x, id, exp, FinalUnknown);
  }

  lemma SoundIff(x: IdInfo, id: string, exp: Expect)
    ensures Sound(x, id, exp) <==> forall code :: !Fault(x, id, exp, code)
  {
    hide Sound, Fault;
    if Sound(x, id, exp) {
      forall code ensures !Fault(x, id, exp, code) {
        SoundHasNoFault(x, id, exp, code);
      }
    }
    if forall code :: !Fault(x, id, exp, code) {
      FaultlessIsSound(x, id, exp);
    }
  }

  // For a submitted id the expectations on the records and the soundness of the tables say the same.
  lemma ExpectationsRead(recs: seq<Rec>, exp: Expect, id: string)
    requires (forall r :: r in recs ==> WellFormed(r)) && Submitted(recs, id)
    ensures Sound(Info(recs, id), id, exp) <==> CallsAsExpected(recs, exp, id) && EndsAsExpected(recs, exp, id)
  {
    FlagsRead(recs, id);
    Readings(recs, id);
    SomeAnswer(recs, id);
    CallReadings(recs, id);
    hide Count, Any, Select, Orphaned, Opened, HasAnswer, HasFinal, HasSubmit, Info, StartsAt, UnendedAt;
  }

  // ------------------------------------------------------------------ a clean ledger has no breach

  lemma CleanRecords(recs: seq<Rec>, exp: Expect, v: Violation)
    requires Clean(recs, exp)
    ensures !RecordBreach(recs, v)
  {
    Readings(recs, v.id);
    assert forall r :: r in recs ==> WellFormed(r) && Complaint(r) == None;
  }

  lemma CleanSetup(recs: seq<Rec>, exp: Expect, v: Violation)
    requires Clean(recs, exp)
    ensures !SetupBreach(recs, exp, v)
  {
    SelectIn(recs, AnySubmit);
    Readings(recs, v.id);
    forall name | name in exp.requiredChecks ensures Any(recs, Passing(name)) {
      SelectIn(recs, Passing(name));
      var r :| r in recs && r.k.Check? && r.name == name;
      assert WellFormed(r) && Fits(Passing(name), r);
    }
  }

  lemma CleanProcs(recs: seq<Rec>, exp: Expect, v: Violation)
    requires Clean(recs, exp)
    ensures !ProcBreach(recs, recs, v)
  {
    EndsRead(recs, v.id);
    forall r | r in recs && IsProc(r) ensures !ProcFault(Shas(recs, r.id), LastLen(recs, r.id), r, v.code) {
      Readings(recs, r.id);
      ShasOfSubmitted(recs, r.id);
      var s :| s in recs && s.k.Submit? && s.id == r.id;
      assert WellFormed(r) && s.sha in Shas(recs, r.id);
    }
  }

  lemma CleanId(recs: seq<Rec>, exp: Expect, id: string, code: Code)
    requires Clean(recs, exp) && Mentioned(recs, id)
    ensures !Fault(Info(recs, id), id, exp, code)
  {
    assert CallsAsExpected(recs, exp, id) && EndsAsExpected(recs, exp, id);
    MentionedIsSubmitted(recs, id);
    ExpectationsRead(recs, exp, id);
    SoundIff(Info(recs, id), id, exp);
  }

  lemma MentionedIsSubmitted(recs: seq<Rec>, id: string)
    requires (forall r :: r in recs ==> WellFormed(r)) && Mentioned(recs, id)
    requires (exists f :: f in recs && f.k.Final? && f.id == id)
             ==> HasAnswer(recs, id, Accepted) || HasAnswer(recs, id, Uncertain)
    ensures Submitted(recs, id)
  {
    Readings(recs, id);
    SomeAnswer(recs, id);
  }

  lemma CleanHasNoBreach(recs: seq<Rec>, exp: Expect, v: Violation)
    requires Clean(recs, exp)
    ensures !Breach(recs, exp, v)
  {
    CleanRecords(recs, exp, v);
    CleanSetup(recs, exp, v);
    CleanProcs(recs, exp, v);
    if Mentioned(recs, v.id) {
      CleanId(recs, exp, v.id, v.code);
    }
  }

  // ------------------------------------------------------------------ a ledger without a breach is clean

  ghost predicate Flawless(recs: seq<Rec>, exp: Expect) {
    forall v :: !Breach(recs, exp, v)
  }

  lemma FlawlessRecords(recs: seq<Rec>, exp: Expect)
    requires Flawless(recs, exp)
    ensures forall r :: r in recs ==> WellFormed(r)
    ensures forall id :: !Conflict(recs, id)
    ensures Any(recs, AnySubmit)
  {
    forall r | r in recs ensures WellFormed(r) {
      assert !Breach(recs, exp, Violation(BadRecord, r.id));
      assert !Breach(recs, exp, Violation(BadRecord, Subject(r)));
      assert !Breach(recs, exp, Violation(QueryError, Subject(r)));
      assert !Breach(recs, exp, Violation(CheckFailed, Subject(r)));
    }
    forall id ensures !Conflict(recs, id) {
      assert !Breach(recs, exp, Violation(SubmitShaConflict, id));
    }
    assert !Breach(recs, exp, Violation(EmptyLedger, ""));
  }

  lemma FlawlessSetup(recs: seq<Rec>, exp: Expect)
    requires Flawless(recs, exp)
    ensures forall name :: name in exp.requiredChecks ==> exists r :: r in recs && r.k.Check? && r.name == name
    ensures forall id :: id in exp.expectCalls ==> HasSubmit(recs, id)
  {
    FlawlessRecords(recs, exp);
    assert !Breach(recs, exp, Violation(MissingRequiredCheck, ""));
    forall name | name in exp.requiredChecks ensures exists r :: r in recs && r.k.Check? && r.name == name {
      SelectIn(recs, Passing(name));
    }
    forall id | id in exp.expectCalls ensures HasSubmit(recs, id) {
      assert !Breach(recs, exp, Violation(ExpectCallsUnknownId, id));
      Readings(recs, id);
    }
  }

  lemma FlawlessProcs(recs: seq<Rec>, exp: Expect)
    requires Flawless(recs, exp)
    ensures forall r :: r in recs && IsProc(r) ==> HasSubmit(recs, r.id)
    ensures forall r :: r in recs && r.k.ProcStart? ==>
      r.pok == Some(true) && r.len == LastLen(recs, r.id) && r.sha in Shas(recs, r.id)
    ensures forall id :: Submitted(recs, id) ==> !EndedTwice(recs, id)
  {
    FlawlessRecords(recs, exp);
    forall r | r in recs && IsProc(r)
      ensures HasSubmit(recs, r.id)
      ensures r.k.ProcStart? ==> r.pok == Some(true) && r.len == LastLen(recs, r.id) && r.sha in Shas(recs, r.id)
    {
      assert WellFormed(r);
      assert !Breach(recs, exp, Violation(UnknownId, r.id));
      assert !Breach(recs, exp, Violation(PayloadNotOk, r.id));
      assert !Breach(recs, exp, Violation(PayloadMismatch, r.id));
      ShasOfSubmitted(recs, r.id);
      Readings(recs, r.id);
    }
    forall id | Submitted(recs, id) ensures !EndedTwice(recs, id) {
      assert !Breach(recs, exp, Violation(BadRecord, id));
    }
  }

  // Nothing is expected of an id the ledger does not submit.
  lemma UnmentionedId(recs: seq<Rec>, exp: Expect, id: string)
    requires (forall r :: r in recs ==> WellFormed(r)) && !Mentioned(recs, id) && id !in exp.expectCalls
    requires forall r :: r in recs && IsProc(r) ==> HasSubmit(recs, r.id)
    ensures CallsAsExpected(recs, exp, id) && EndsAsExpected(recs, exp, id)
    ensures EndsOnce(recs, id)
  {
    Readings(recs, id);
    FlagsRead(recs, id);
    SomeAnswer(recs, id);
    ShasOfSubmitted(recs, id);
    assert forall r :: r in recs && IsProc(r) ==> r.id != id;
    assert StartsAt(recs, id) == {} && UnendedAt(recs, id) == {};
    hide Shas;
  }

  lemma FlawlessIsClean(recs: seq<Rec>, exp: Expect)
    requires Flawless(recs, exp)
    ensures Clean(recs, exp)
  {
    FlawlessRecords(recs, exp);
    FlawlessSetup(recs, exp);
    FlawlessProcs(recs, exp);
    SelectIn(recs, AnySubmit);
    forall id ensures CallsAsExpected(recs, exp, id) && EndsAsExpected(recs, exp, id) && EndsOnce(recs, id) {
      FlawlessId(recs, exp, id);
    }
    forall r, s | r in recs && s in recs && r.k.Submit? && s.k.Submit? && r.id == s.id ensures r.sha == s.sha {
      Readings(recs, r.id);
      assert !Conflict(recs, r.id) && r.sha in Shas(recs, r.id) && s.sha in Shas(recs, r.id);
    }
    forall r, s | r in recs && r.k.ProcStart? && s in recs && s.k.Submit? && s.id == r.id ensures s.sha == r.sha {
      Readings(recs, r.id);
      assert !Conflict(recs, r.id) && r.sha in Shas(recs, r.id) && s.sha in Shas(recs, r.id);
    }
    hide CallsAsExpected, EndsAsExpected, Shas, Select, Count, Any, Conflict, WellFormed, HasSubmit, LastLen,
      EndsOnce;
  }

  lemma FlawlessId(recs: seq<Rec>, exp: Expect, id: string)
    requires Flawless(recs, exp)
    ensures CallsAsExpected(recs, exp, id) && EndsAsExpected(recs, exp, id) && EndsOnce(recs, id)
  {
    FlawlessRecords(recs, exp);
    FlawlessProcs(recs, exp);
    FlawlessSetup(recs, exp);
    Readings(recs, id);
    if Mentioned(recs, id) {
      forall code ensures !Fault(Info(recs, id), id, exp, code) {
        assert !Breach(recs, exp, Violation(code, id));
      }
      SoundIff(Info(recs, id), id, exp);
      FinalsAreSubmitted(recs, exp, id);
      ExpectationsRead(recs, exp, id);
      EndsRead(recs, id);
    } else {
      UnmentionedId(recs, exp, id);
    }
  }

  lemma FinalsAreSubmitted(recs: seq<Rec>, exp: Expect, id: string)
    requires (forall r :: r in recs ==> WellFormed(r)) && Mentioned(recs, id) && Sound(Info(recs, id), id, exp)
    ensures Submitted(recs, id)
  {
    FlagsRead(recs, id);
    Readings(recs, id);
    SomeAnswer(recs, id);
  }

  /** The validator passes a ledger exactly if it is clean. */
  lemma PassesIffClean(recs: seq<Rec>, exp: Expect)
    ensures (forall v :: !Breach(recs, exp, v)) <==> Clean(recs, exp)
  {
    if Clean(recs, exp) {
      forall v ensures !Breach(recs, exp, v) {
        CleanHasNoBreach(recs, exp, v);
      }
    }
    if Flawless(recs, exp) {
      FlawlessIsClean(recs, exp);
    }
  }

  // ------------------------------------------------------------------ order of the records

  // The same facts, with the calls and observations in some order.
  ghost predicate Alike(x: IdInfo, y: IdInfo) {
    && Permuted(x.starts, y.starts) && Permuted(x.finals, y.finals)
    && y == x.(starts := y.starts, finals := y.finals)
  }

  lemma ShasPermuted(a: seq<Rec>, b: seq<Rec>, id: string)
    requires Permuted(a, b)
    ensures Shas(a, id) == Shas(b, id)
  {
    SelectPermuted(a, b, Submits(id));
    SameMembers(Select(a, Submits(id)), Select(b, Submits(id)));
    hide Select;
  }

  lemma EndsPermuted(a: seq<Rec>, b: seq<Rec>, id: string)
    requires Permuted(a, b)
    ensures Calls(Select(a, Ends(id))) == Calls(Select(b, Ends(id)))
    ensures EndedTwice(a, id) <==> EndedTwice(b, id)
  {
    var x, y := Select(a, Ends(id)), Select(b, Ends(id));
    SelectPermuted(a, b, Ends(id));
    SameMembers(x, y);
    hide Select, Permuted;
    forall call ensures Count(x, Called(call)) == Count(y, Called(call)) {
      SelectPermuted(x, y, Called(call));
    }
  }

  lemma InfoPermuted(a: seq<Rec>, b: seq<Rec>, id: string)
    requires Permuted(a, b)
    ensures Alike(Info(a, id), Info(b, id))
    ensures Submitted(a, id) <==> Submitted(b, id)
    ensures Mentioned(a, id) <==> Mentioned(b, id)
  {
    ShasPermuted(a, b, id);
    EndsPermuted(a, b, id);
    SelectPermuted(a, b, Submits(id));
    SelectPermuted(a, b, Finals(id));
    SelectPermuted(a, b, Starts(id));
    SelectPermuted(a, b, Answers(id, Accepted));
    SelectPermuted(a, b, Answers(id, Rejected));
    SelectPermuted(a, b, Answers(id, Uncertain));
    hide Select, Count, Shas, Calls;
  }

  lemma AlikeFacts(x: IdInfo, y: IdInfo, id: string, exp: Expect)
    requires Alike(x, y)
    ensures |x.starts| == |y.starts| && |x.finals| == |y.finals| && Opened(x) == Opened(y)
            && (Orphaned(x) <==> Orphaned(y))
    ensures Any(x.finals, Showing(DigestMismatch)) <==> Any(y.finals, Showing(DigestMismatch))
    ensures Any(x.finals, Showing(Want(id, exp))) <==> Any(y.finals, Showing(Want(id, exp)))
  {
    SameMembers(x.starts, y.starts);
    SameMembers(x.finals, y.finals);
    SelectPermuted(x.starts, y.starts, Open(x.ends));
    SelectPermuted(x.finals, y.finals, Showing(DigestMismatch));
    SelectPermuted(x.finals, y.finals, Showing(Want(id, exp)));
    hide Select, Permuted, Count, Want;
    forall c ensures Any(x.starts, Called(c)) <==> Any(y.starts, Called(c)) {
      SelectPermuted(x.starts, y.starts, Called(c));
    }
  }

  lemma AlikeFlags(x: IdInfo, y: IdInfo)
    requires Alike(x, y)
    ensures x.accepted == y.accepted && x.rejected == y.rejected && x.uncert == y.uncert
    ensures x.finals == [] <==> y.finals == []
  {
    SameMembers(x.finals, y.finals);
  }

  lemma AlikeJudged(x: IdInfo, y: IdInfo, id: string, exp: Expect, code: Code)
    requires Alike(x, y)
    ensures Fault(x, id, exp, code) <==> Fault(y, id, exp, code)
  {
    hide Permuted, Opened, Orphaned, Any, Want, Alike;
    AlikeFacts(x, y, id, exp);
    AlikeFlags(x, y);
  }

  lemma AlikeTallied(x: IdInfo, y: IdInfo, id: string, exp: Expect, was: Tally)
    requires Alike(x, y)
    ensures TallyAfter(x, id, exp, was) == TallyAfter(y, id, exp, was)
  {
    hide Permuted, Opened, Orphaned, Any, Want, Alike;
    AlikeFacts(x, y, id, exp);
    AlikeFlags(x, y);
  }

  lemma {:induction false} TotalsPermuted(a: seq<Rec>, b: seq<Rec>, exp: Expect, names: seq<string>, start: Tally)
    requires Permuted(a, b)
    ensures TallyAll(a, exp, names, start) == TallyAll(b, exp, names, start)
    decreases |names|
  {
    if names != [] {
      var front, last := names[..|names| - 1], names[|names| - 1];
      TotalsPermuted(a, b, exp, front, start);
      InfoPermuted(a, b, last);
      AlikeTallied(Info(a, last), Info(b, last), last, exp, TallyAll(a, exp, front, start));
    }
  }

  lemma SetupPermuted(a: seq<Rec>, b: seq<Rec>, exp: Expect, v: Violation)
    requires Permuted(a, b)
    ensures SetupBreach(a, exp, v) <==> SetupBreach(b, exp, v)
  {
    InfoPermuted(a, b, v.id);
    SelectPermuted(a, b, AnySubmit);
    forall name ensures Any(a, Passing(name)) <==> Any(b, Passing(name)) {
      SelectPermuted(a, b, Passing(name));
    }
    hide Info, Mentioned, Submitted, Select, Any, Permuted, Alike;
  }

  lemma RecordPermuted(a: seq<Rec>, b: seq<Rec>, v: Violation)
    requires Permuted(a, b)
    ensures RecordBreach(a, v) <==> RecordBreach(b, v)
  {
    SameMembers(a, b);
    ShasPermuted(a, b, v.id);
    hide Shas, Complaint, Subject, Permuted;
  }

  lemma ProcPermuted(a: seq<Rec>, b: seq<Rec>, v: Violation)
    requires Permuted(a, b) && !v.code.PayloadMismatch?
    ensures ProcBreach(a, a, v) <==> ProcBreach(b, b, v)
  {
    SameMembers(a, b);
    InfoPermuted(a, b, v.id);
    ShasPermuted(a, b, v.id);
    EndsPermuted(a, b, v.id);
    hide Info, Mentioned, Submitted, Select, EndedTwice, LastLen, Shas, Permuted, Alike;
  }

  // ------------------------------------------------------------------ when exactly the order matters

  // Submits of id declare this length.
  ghost predicate Declares(recs: seq<Rec>, id: string, len: int) {
    exists s :: s in recs && Fits(Submits(id), s) && s.len == len
  }

  // The starts of id are right if this length was the one declared last.
  ghost predicate StartsMatch(recs: seq<Rec>, id: string, len: int) {
    forall r :: r in recs && Fits(Starts(id), r) ==> r.sha in Shas(recs, id) && r.len == len
  }

  /** The calls of id were made with one of two lengths its submits declare. */
  ghost predicate LengthDecides(recs: seq<Rec>, id: string) {
    && Any(recs, Starts(id))
    && exists len, other ::
       Declares(recs, id, len) && Declares(recs, id, other) && len != other && StartsMatch(recs, id, len)
  }

  lemma {:induction false} LastLenDeclared(recs: seq<Rec>, id: string)
    ensures Submitted(recs, id) ==> Declares(recs, id, LastLen(recs, id))
    ensures Submitted(recs, id) <==> exists len :: Declares(recs, id, len)
    decreases |recs|
  {
    SelectIn(recs, Submits(id));
    if recs != [] {
      var front, last := recs[..|recs| - 1], recs[|recs| - 1];
      assert recs == front + [last];
      LastLenDeclared(front, id);
      CountOneMore(front, last, Submits(id));
      if Fits(Submits(id), last) {
        assert Declares(recs, id, last.len);
      }
      hide Select, Count;
    }
  }

  // The one breach that looks at the declared length.
  lemma MismatchRead(recs: seq<Rec>, exp: Expect, id: string)
    ensures Breach(recs, exp, Violation(PayloadMismatch, id))
            <==> Submitted(recs, id) && !StartsMatch(recs, id, LastLen(recs, id))
  {
    ShasOfSubmitted(recs, id);
    hide Shas, Select, Any, Info, LastLen, Submitted, Mentioned;
  }

  lemma DeclaresPermuted(a: seq<Rec>, b: seq<Rec>, id: string, len: int)
    requires Permuted(a, b)
    ensures Declares(a, id, len) <==> Declares(b, id, len)
    ensures StartsMatch(a, id, len) <==> StartsMatch(b, id, len)
  {
    SameMembers(a, b);
    ShasPermuted(a, b, id);
    hide Shas, Permuted;
  }

  lemma MismatchPermuted(a: seq<Rec>, b: seq<Rec>, exp: Expect, id: string)
    requires Permuted(a, b) && !LengthDecides(a, id)
    ensures Breach(a, exp, Violation(PayloadMismatch, id)) <==> Breach(b, exp, Violation(PayloadMismatch, id))
  {
    var x, y := LastLen(a, id), LastLen(b, id);
    MismatchRead(a, exp, id);
    MismatchRead(b, exp, id);
    LastLenDeclared(a, id);
    LastLenDeclared(b, id);
    DeclaresPermuted(a, b, id, x);
    DeclaresPermuted(a, b, id, y);
    SubmittedPermuted(a, b, id);
    SelectIn(a, Starts(id));
    hide Breach, LastLen, Submitted, Declares, Permuted, Select, Count, Any, Shas;
  }

  lemma SubmittedPermuted(a: seq<Rec>, b: seq<Rec>, id: string)
    requires Permuted(a, b)
    ensures Submitted(a, id) <==> Submitted(b, id)
  {
    InfoPermuted(a, b, id);
  }

  // Moving a submit to the end makes its length the declared one.
  lemma MovedLast(recs: seq<Rec>, id: string, len: int) returns (moved: seq<Rec>)
    requires Declares(recs, id, len)
    ensures Permuted(recs, moved) && LastLen(moved, id) == len
  {
    var s :| s in recs && Fits(Submits(id), s) && s.len == len;
    var k :| 0 <= k < |recs| && recs[k] == s;
    moved := recs[..k] + recs[k + 1..] + [s];
    assert recs == recs[..k] + [s] + recs[k + 1..];
  }

  lemma LengthDecidesVerdict(a: seq<Rec>, exp: Expect, id: string) returns (b: seq<Rec>, c: seq<Rec>)
    requires LengthDecides(a, id)
    ensures Permuted(a, b) && Permuted(a, c)
    ensures !Breach(b, exp, Violation(PayloadMismatch, id)) && Breach(c, exp, Violation(PayloadMismatch, id))
  {
    SelectIn(a, Starts(id));
    var len, other :| Declares(a, id, len) && Declares(a, id, other) && len != other && StartsMatch(a, id, len);
    b := MovedLast(a, id, len);
    c := MovedLast(a, id, other);
    DeclaresPermuted(a, b, id, len);
    DeclaresPermuted(a, c, id, other);
    MismatchRead(b, exp, id);
    MismatchRead(c, exp, id);
    LastLenDeclared(c, id);
    assert !StartsMatch(a, id, other);
  }

  lemma OtherPermuted(a: seq<Rec>, b: seq<Rec>, exp: Expect, v: Violation)
    requires Permuted(a, b) && !v.code.PayloadMismatch?
    ensures Breach(a, exp, v) <==> Breach(b, exp, v)
  {
    RecordPermuted(a, b, v);
    SetupPermuted(a, b, exp, v);
    ProcPermuted(a, b, v);
    InfoPermuted(a, b, v.id);
    AlikeJudged(Info(a, v.id), Info(b, v.id), v.id, exp, v.code);
    hide RecordBreach, SetupBreach, ProcBreach, Fault, Info, Mentioned, Submitted;
  }

  // Every way to order the records gives the same verdict.
  ghost predicate OrderFree(a: seq<Rec>, exp: Expect) {
    forall b, v :: Permuted(a, b) ==> (Breach(a, exp, v) <==> Breach(b, exp, v))
  }

  /** The verdict depends on the order of the records exactly if some id was submitted with different lengths
      and called with one of them; in particular it does not when the submits of each id agree. */
  lemma OrderIrrelevantIff(a: seq<Rec>, exp: Expect)
    ensures OrderFree(a, exp) <==> forall id :: !LengthDecides(a, id)
  {
    if forall id :: !LengthDecides(a, id) {
      forall b, v | Permuted(a, b) ensures Breach(a, exp, v) <==> Breach(b, exp, v) {
        if v.code.PayloadMismatch? {
          MismatchPermuted(a, b, exp, v.id);
        } else {
          OtherPermuted(a, b, exp, v);
        }
      }
    }
    if exists id :: LengthDecides(a, id) {
      var id :| LengthDecides(a, id);
      var b, c := LengthDecidesVerdict(a, exp, id);
      var v := Violation(PayloadMismatch, id);
      assert Breach(a, exp, v) != Breach(b, exp, v) || Breach(a, exp, v) != Breach(c, exp, v);
    }
  }

  /** The counters never depend on the order. */
  lemma TotalsOrderFree(a: seq<Rec>, b: seq<Rec>, exp: Expect)
    requires Permuted(a, b)
    ensures Totals(a, exp) == Totals(b, exp)
  {
    SameMembers(a, b);
    assert MentionedIds(a) == MentionedIds(b) && SubmittedIds(a) == SubmittedIds(b);
    SelectPermuted(a, b, AnySubmit);
    SelectPermuted(a, b, StartsAmong(SubmittedIds(a)));
    TotalsPermuted(a, b, exp, Names(a), AtFirst(a));
  }

  // A ledger whose verdict depends on the order: the last of two submits decides.
  lemma OrderMatters(exp: Expect)
    ensures var short := Rec(Submit, "x", "h", 1, Accepted, "", "", None, OtherState, "", None);
            var start := Rec(ProcStart, "x", "h", 2, OtherResult, "", "c", Some(true), OtherState, "", None);
            !OrderFree([short, short.(len := 2), start], exp)
  {
    var short := Rec(Submit, "x", "h", 1, Accepted, "", "", None, OtherState, "", None);
    var long := short.(len := 2);
    var start := Rec(ProcStart, "x", "h", 2, OtherResult, "", "c", Some(true), OtherState, "", None);
    var a := [short, long, start];
    assert short in a && long in a && start in a;
    assert Declares(a, "x", 1) && Declares(a, "x", 2);
    SelectIn(a, Starts("x"));
    SelectIn(a, Submits("x"));
    assert short in Select(a, Submits("x")) && "h" in Shas(a, "x");
    hide Select, Shas, Any;
    assert StartsMatch(a, "x", 2);
    assert LengthDecides(a, "x");
    OrderIrrelevantIff(a, exp);
  }

  // ------------------------------------------------------------------ the counters

  function CallsOf(recs: seq<Rec>, names: seq<string>): nat {
    if names == [] then 0
    else CallsOf(recs, names[..|names| - 1]) + |Info(recs, names[|names| - 1]).starts|
  }

  // The starts of those names that are in ids, counted name by name.
  function StartsByName(recs: seq<Rec>, names: seq<string>, ids: set<string>): nat {
    if names == [] then 0
    else
      var last := names[|names| - 1];
      StartsByName(recs, names[..|names| - 1], ids) + if last in ids then Count(recs, Starts(last)) else 0
  }

  lemma StartOfOne(r: Rec, id: string, ids: set<string>)
    ensures Fits(Starts(id), r) && id in ids <==> Fits(StartsAmong(ids), r) && r.id == id
    ensures Fits(StartsAmong(ids), r) ==> r.id in ids
  {
  }

  lemma {:induction false} OneMoreStart(recs: seq<Rec>, r: Rec, names: seq<string>, ids: set<string>)
    requires NoDup(names)
    ensures StartsByName(recs + [r], names, ids)
            == StartsByName(recs, names, ids) + if Fits(StartsAmong(ids), r) && r.id in names then 1 else 0
    decreases |names|
  {
    if names != [] {
      hide Select, Count, Fits;
      var front, last := names[..|names| - 1], names[|names| - 1];
      assert names == front + [last] && last !in front;
      OneMoreStart(recs, r, front, ids);
      CountOneMore(recs, r, Starts(last));
      StartOfOne(r, last, ids);
      assert r.id in names <==> r.id in front || r.id == last;
    }
  }

  lemma {:induction false} StartsCounted(recs: seq<Rec>, names: seq<string>, ids: set<string>)
    requires NoDup(names) && forall id :: id in ids ==> id in names
    ensures StartsByName(recs, names, ids) == Count(recs, StartsAmong(ids))
    decreases |recs|
  {
    if recs == [] {
      NoStarts(names, ids);
    } else {
      var front, last := recs[..|recs| - 1], recs[|recs| - 1];
      assert recs == front + [last];
      StartsCounted(front, names, ids);
      OneMoreStart(front, last, names, ids);
      CountOneMore(front, last, StartsAmong(ids));
    }
  }

  lemma {:induction false} NoStarts(names: seq<string>, ids: set<string>)
    ensures StartsByName([], names, ids) == 0
    decreases |names|
  {
    if names != [] {
      NoStarts(names[..|names| - 1], ids);
    }
  }

  lemma {:induction false} CallsAreStarts(recs: seq<Rec>, names: seq<string>)
    ensures CallsOf(recs, names) == StartsByName(recs, names, SubmittedIds(recs))
    decreases |names|
  {
    if names != [] {
      var front, last := names[..|names| - 1], names[|names| - 1];
      CallsAreStarts(recs, front);
      ShasOfSubmitted(recs, last);
      IdSets(recs, last);
      hide Select, Shas, SubmittedIds;
    }
  }

  // How the counters grow with each judged id.
  lemma {:induction false} TallyGrows(recs: seq<Rec>, exp: Expect, names: seq<string>, start: Tally)
    ensures var t := TallyAll(recs, exp, names, start);
      && t.procCalls == start.procCalls && t.submitAttempts == start.submitAttempts
      && t.uniqueSubmitted == start.uniqueSubmitted + |names|
      && t.duplicates + t.uniqueExecuted == start.duplicates + start.uniqueExecuted + CallsOf(recs, names)
      && 0 <= t.scriptedRepeats - start.scriptedRepeats <= t.duplicates - start.duplicates
      && t.confirmed + t.confirmedFailed - start.confirmed - start.confirmedFailed <= t.accepted - start.accepted
      && t.accepted + t.rejected + t.uncertain - start.accepted - start.rejected - start.uncertain <= |names|
      && ((forall id :: id in names ==> Answered(Info(recs, id))) ==>
            t.accepted + t.rejected + t.uncertain - start.accepted - start.rejected - start.uncertain == |names|)
    decreases |names|
  {
    if names != [] {
      var front, last := names[..|names| - 1], names[|names| - 1];
      TallyGrows(recs, exp, front, start);
      assert names == front + [last];
      hide Info, Opened, Any, Want;
      JudgedGrows(Info(recs, last), last, exp, TallyAll(recs, exp, front, start));
    }
  }

  predicate Answered(x: IdInfo) {
    x.accepted || x.rejected || x.uncert
  }

  lemma JudgedGrows(x: IdInfo, id: string, exp: Expect, was: Tally)
    ensures var t := TallyAfter(x, id, exp, was);
      && t.procCalls == was.procCalls && t.submitAttempts == was.submitAttempts
      && t.uniqueSubmitted == was.uniqueSubmitted + 1
      && t.duplicates + t.uniqueExecuted == was.duplicates + was.uniqueExecuted + |x.starts|
      && 0 <= t.scriptedRepeats - was.scriptedRepeats <= t.duplicates - was.duplicates
      && t.confirmed + t.confirmedFailed - was.confirmed - was.confirmedFailed <= t.accepted - was.accepted
      && t.accepted + t.rejected + t.uncertain - was.accepted - was.rejected - was.uncertain == One(Answered(x))
  {
    hide Opened, Any;
  }

  // Every id with a submit or a final observation that counts is judged once.
  lemma JudgedIds(recs: seq<Rec>, exp: Expect)
    ensures Totals(recs, exp).uniqueSubmitted == |MentionedIds(recs)|
    ensures SubmittedIds(recs) <= MentionedIds(recs)
  {
    hide TallyAll, CallsOf, SubmittedIds, MentionedIds, Count, Info, Answered;
    var z := map id | id in MentionedIds(recs) :: 0;
    Ranking.RankedLists(z);
    assert z.Keys == MentionedIds(recs);
    TallyGrows(recs, exp, Names(recs), AtFirst(recs));
    forall id | id in SubmittedIds(recs) ensures id in MentionedIds(recs) {
      IdSets(recs, id);
    }
  }

  /** In every report the duplicates are the calls beyond the first of each executed id, the scripted repeats
      are among them, no more ids are confirmed than accepted, and every id with a good submit or a good final
      observation is counted once as submitted. */
  lemma CountersAddUp(recs: seq<Rec>, exp: Expect)
    ensures var t := Totals(recs, exp);
      && t.duplicates == t.procCalls - t.uniqueExecuted
      && 0 <= t.scriptedRepeats <= t.duplicates
      && t.confirmed + t.confirmedFailed <= t.accepted
      && t.accepted + t.rejected + t.uncertain <= t.uniqueSubmitted == |MentionedIds(recs)|
  {
    JudgedIds(recs, exp);
    var names := Names(recs);
    NamesAreIds(recs);
    forall id | id in SubmittedIds(recs) ensures id in names {
      IdSets(recs, id);
    }
    StartsCounted(recs, names, SubmittedIds(recs));
    CallsAreStarts(recs, names);
    hide Names, TallyAll, CallsOf, StartsByName, Mentioned, SubmittedIds, Count;
    TallyGrows(recs, exp, names, AtFirst(recs));
  }

  /** UniqueSubmitted never counts too few ids, and it is the number of submitted ids exactly if every id with a
      final observation was submitted. */
  lemma UniqueSubmittedIff(recs: seq<Rec>, exp: Expect)
    ensures Totals(recs, exp).uniqueSubmitted >= |SubmittedIds(recs)|
    ensures Totals(recs, exp).uniqueSubmitted == |SubmittedIds(recs)|
            <==> forall r :: r in recs && GoodFinal(r) ==> r.id in SubmittedIds(recs)
  {
    JudgedIds(recs, exp);
    hide Totals;
    var all, sent := MentionedIds(recs), SubmittedIds(recs);
    assert all == sent + (all - sent) && |all| == |sent| + |all - sent|;
    if all != sent {
      var id :| id in all && id !in sent;
      var r :| r in recs && (GoodSubmit(r) || GoodFinal(r)) && r.id == id;
      assert |all - sent| > 0;
    }
  }

  // A ledger with one final observation and no submit reports one unique submitted id.
  lemma FinalCountsAsSubmitted(exp: Expect)
    ensures var final := Rec(Final, "x", "", 0, OtherResult, "", "", None, Done, "", None);
            Totals([final], exp).uniqueSubmitted == 1 && SubmittedIds([final]) == {}
  {
    var final := Rec(Final, "x", "", 0, OtherResult, "", "", None, Done, "", None);
    assert final in [final];
    assert MentionedIds([final]) == {"x"};
    JudgedIds([final], exp);
  }

  lemma CleanNames(recs: seq<Rec>, exp: Expect, id: string)
    requires Clean(recs, exp)
    ensures id in Names(recs) <==> HasSubmit(recs, id)
    ensures id in Names(recs) ==> Answered(Info(recs, id))
  {
    NamesAreIds(recs);
    Readings(recs, id);
    SomeAnswer(recs, id);
    FlagsRead(recs, id);
    assert EndsAsExpected(recs, exp, id);
    if Mentioned(recs, id) {
      MentionedIsSubmitted(recs, id);
    }
    hide Names, Info, Any, Select, HasSubmit, HasAnswer, HasFinal;
  }

  lemma CleanStart(recs: seq<Rec>, exp: Expect, r: Rec)
    requires Clean(recs, exp) && r in recs && r.k.ProcStart?
    ensures Fits(StartsAmong(SubmittedIds(recs)), r)
  {
    Readings(recs, r.id);
    IdSets(recs, r.id);
    assert WellFormed(r);
  }

  /** A clean ledger splits its ids, which are the submitted ones, into accepted, rejected and uncertain ones,
      and counts every call of the Processor. */
  lemma CleanPartition(recs: seq<Rec>, exp: Expect)
    requires Clean(recs, exp)
    ensures var t := Totals(recs, exp);
      && t.accepted + t.rejected + t.uncertain == t.uniqueSubmitted == |Names(recs)|
      && t.procCalls == Count(recs, StartsAmong(SubmittedIds(recs)))
    ensures NoDup(Names(recs)) && forall id :: id in Names(recs) <==> HasSubmit(recs, id)
    ensures forall r :: r in recs && r.k.ProcStart? ==> Fits(StartsAmong(SubmittedIds(recs)), r)
  {
    hide Clean, Names, TallyAll, CallsOf, Mentioned, SubmittedIds, Count, Info, HasSubmit, Answered, Fits;
    NamesAreIds(recs);
    forall r | r in recs && r.k.ProcStart? ensures Fits(StartsAmong(SubmittedIds(recs)), r) {
      CleanStart(recs, exp, r);
    }
    forall id
      ensures id in Names(recs) <==> HasSubmit(recs, id)
      ensures id in Names(recs) ==> Answered(Info(recs, id))
    {
      CleanNames(recs, exp, id);
    }
    TallyGrows(recs, exp, Names(recs), AtFirst(recs));
  }
}
