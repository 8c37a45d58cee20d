/** renewLoop: the lease clock a worker keeps while its Processor runs. It never trusts the lease longer than
    one LeaseDuration after the last successful request was sent, and it gives up within a known time. */
module RenewLoop {
  // How a renewal request ended and how long it took.
  datatype Answer = Renewed | Lost | Failed
  datatype Attempt = Attempt(answer: Answer, took: nat)

  // The loop's lease, when the claim was sent, when the loop started, and the requests it gets to send
  // before the Processor returns.
  datatype Session = Session(lease: nat, leaseStart: int, loopStart: int, attempts: seq<Attempt>) {
    function Interval(): nat {
      lease / 3
    }

    // The ticker is ideal: request k is sent at tick k + 1 and ends before the next tick.
    predicate Valid() {
      lease >= 3 && leaseStart <= loopStart && forall k :: 0 <= k < |attempts| ==> attempts[k].took <= Interval()
    }

    function SentAt(k: nat): int {
      loopStart + (k + 1) * Interval()
    }

    function EndedAt(k: nat): int
      requires k < |attempts|
    {
      SentAt(k) + attempts[k].took
    }

    // When the last successful request among the first n was sent: the local start of the lease.
    function LastOK(n: nat): int
      requires n <= |attempts|
    {
      if n == 0 then leaseStart
      else if attempts[n - 1].answer.Renewed? then SentAt(n - 1)
      else LastOK(n - 1)
    }

    // Request k is the last straw: the token was refused, or the lease must be presumed over.
    predicate GivesUp(k: nat)
      requires k < |attempts|
    {
      attempts[k].answer.Lost? || (attempts[k].answer.Failed? && EndedAt(k) - LastOK(k) >= lease)
    }
  }

  // The Processor was cancelled after request at, or it was never cancelled.
  datatype Verdict = Kept | Cancelled(at: nat)

  // The Processor is cancelled at the first request that gives reason to, if any does.
  ghost predicate IsVerdict(s: Session, v: Verdict, lastOK: int) {
    match v
    case Kept => (forall k :: 0 <= k < |s.attempts| ==> !s.GivesUp(k)) && lastOK == s.LastOK(|s.attempts|)
    case Cancelled(at) =>
      at < |s.attempts| && s.GivesUp(at) && (forall k :: 0 <= k < at ==> !s.GivesUp(k)) && lastOK == s.LastOK(at)
  }

  // When request k went out and when it was over, told from the session's figures alone.
  function Sent(s: Session, k: nat): int {
    s.loopStart + (k + 1) * (s.lease / 3)
  }

  function Over(s: Session, k: nat): int
    requires k < |s.attempts|
  {
    Sent(s, k) + s.attempts[k].took
  }

  // When request k was over, a full lease had passed since the claim was sent and since every earlier success was.
  ghost predicate Outlived(s: Session, k: nat)
    requires k < |s.attempts|
  {
    && Over(s, k) - s.leaseStart >= s.lease
    && forall j: nat :: j < k && s.attempts[j].answer.Renewed? ==> Over(s, k) - Sent(s, j) >= s.lease
  }

  // The local start of the lease is when the last success was sent, or when the claim was.
  lemma {:induction false} LastOKIs(s: Session, n: nat)
    requires s.Valid() && n <= |s.attempts|
    ensures s.leaseStart <= s.LastOK(n)
    ensures forall j: nat :: j < n && s.attempts[j].answer.Renewed? ==> Sent(s, j) <= s.LastOK(n)
    ensures s.LastOK(n) == s.leaseStart
            || exists j: nat :: j < n && s.attempts[j].answer.Renewed? && s.LastOK(n) == Sent(s, j)
  {
    if n > 0 {
      LastOKIs(s, n - 1);
      forall j: nat | j < n - 1 && s.attempts[n - 1].answer.Renewed? ensures Sent(s, j) <= Sent(s, n - 1) {
        Multiples(j + 1, n, s.lease / 3);
      }
      if s.attempts[n - 1].answer.Renewed? {
        Multiples(0, n, s.lease / 3);
        assert s.LastOK(n) == Sent(s, n - 1);
      }
    }
  }

  lemma FailedGivesUp(s: Session, k: nat)
    requires s.Valid() && k < |s.attempts|
    ensures s.attempts[k].answer.Lost? ==> s.GivesUp(k)
    ensures s.attempts[k].answer.Failed? ==> (s.GivesUp(k) <==> Outlived(s, k))
    ensures s.attempts[k].answer.Renewed? ==> !s.GivesUp(k)
  {
    LastOKIs(s, k);
  }

  lemma AllGiveUp(s: Session)
    requires s.Valid()
    ensures forall k: nat :: k < |s.attempts| ==>
              (s.GivesUp(k) <==> s.attempts[k].answer.Lost? || (s.attempts[k].answer.Failed? && Outlived(s, k)))
  {
    hide Session.GivesUp, Outlived;
    forall k: nat | k < |s.attempts|
      ensures s.GivesUp(k) <==> s.attempts[k].answer.Lost? || (s.attempts[k].answer.Failed? && Outlived(s, k))
    {
      FailedGivesUp(s, k);
    }
  }

  /** The loop itself. A refused request cancels the Processor at once, however young the lease; a failed one does
      exactly if it has outlived the lease; nothing else does. */
  method Run(s: Session) returns (v: Verdict, lastOK: int)
    requires s.Valid()
    ensures IsVerdict(s, v, lastOK)
    ensures forall k: nat :: k < |s.attempts| && s.attempts[k].answer.Lost? ==> v.Cancelled? && v.at <= k
    ensures forall k: nat :: k < |s.attempts| && s.attempts[k].answer.Failed? && Outlived(s, k)
              ==> v.Cancelled? && v.at <= k
    ensures v.Cancelled? ==>
      v.at < |s.attempts|
      && (s.attempts[v.at].answer.Lost? || (s.attempts[v.at].answer.Failed? && Outlived(s, v.at)))
  {
    var interval := s.lease / 3;
    var tick := s.loopStart;
    lastOK := s.leaseStart;
    for k := 0 to |s.attempts|
      invariant tick == s.loopStart + k * interval
      invariant lastOK == s.LastOK(k)
      invariant forall j :: 0 <= j < k ==> !s.GivesUp(j)
    {
      tick := tick + interval;
      var sentAt := tick;
      var now := sentAt + s.attempts[k].took;
      match s.attempts[k].answer {
        case Renewed =>
          lastOK := sentAt;
        case Lost =>
          AllGiveUp(s);
          return Cancelled(k), lastOK;
        case Failed =>
          if now - lastOK >= s.lease {
            AllGiveUp(s);
            return Cancelled(k), lastOK;
          }
      }
    }
    AllGiveUp(s);
    v := Kept;
  }

  lemma {:induction false} LastOKUnchanged(s: Session, from: nat, n: nat)
    requires from <= n <= |s.attempts| && forall k :: from <= k < n ==> !s.attempts[k].answer.Renewed?
    ensures s.LastOK(n) == s.LastOK(from)
  {
    if from < n {
      LastOKUnchanged(s, from, n - 1);
    }
  }

  lemma Multiples(a: nat, b: nat, n: nat)
    requires a <= b
    ensures a * n <= b * n
  {
    assert b * n - a * n == (b - a) * n;
  }

  function Later(a: int, b: int): int {
    if a < b then b else a
  }

  // The fourth request in a row that does not succeed is always the last.
  lemma FourthFailure(s: Session, from: nat)
    requires s.Valid() && s.lease >= 6 && from + 4 <= |s.attempts|
    requires from > 0 ==> s.attempts[from - 1].answer.Renewed?
    requires forall k :: from <= k < from + 4 ==> !s.attempts[k].answer.Renewed?
    ensures s.GivesUp(from + 3)
    ensures s.SentAt(from + 3) == Later(s.LastOK(from), s.loopStart) + 4 * s.Interval()
  {
    var last := from + 3;
    LastOKUnchanged(s, from, last);
    assert s.SentAt(last) == s.loopStart + from * s.Interval() + 4 * s.Interval();
  }

  lemma EndsBefore(s: Session, k: nat, last: nat)
    requires s.Valid() && k <= last < |s.attempts|
    ensures s.EndedAt(k) <= s.SentAt(last) + s.Interval()
  {
    Multiples(k + 1, last + 1, s.Interval());
  }

  /** When renewals stop succeeding and at least four more are made, the Processor is cancelled, at the latest
      five intervals after the last success was sent or the loop began, whichever is later. */
  lemma GivesUpInTime(s: Session, v: Verdict, lastOK: int, from: nat)
    requires s.Valid() && s.lease >= 6 && from + 4 <= |s.attempts| && IsVerdict(s, v, lastOK)
    requires from > 0 ==> s.attempts[from - 1].answer.Renewed?
    requires forall k :: from <= k < |s.attempts| ==> !s.attempts[k].answer.Renewed?
    ensures v.Cancelled? && v.at < from + 4
    ensures s.EndedAt(v.at) <= Later(s.LastOK(from), s.loopStart) + 5 * s.Interval()
  {
    FourthFailure(s, from);
    hide Session.SentAt, Session.EndedAt, Session.LastOK, Session.GivesUp, Session.Interval;
    assert v.Cancelled? && v.at < from + 4;
    EndsBefore(s, v.at, from + 3);
  }

  /** Unless the token was refused, the cancellation comes a full lease after the last success was sent, or
      later; and no earlier failed request had come that late. */
  lemma NeverTooEarly(s: Session, v: Verdict, lastOK: int)
    requires IsVerdict(s, v, lastOK)
    ensures v.Cancelled? && !s.attempts[v.at].answer.Lost? ==> s.EndedAt(v.at) >= lastOK + s.lease
    ensures forall k :: 0 <= k < |s.attempts| && (v.Cancelled? ==> k < v.at) && s.attempts[k].answer.Failed?
              ==> s.EndedAt(k) < s.LastOK(k) + s.lease
  {
    forall k | 0 <= k < |s.attempts| && (v.Cancelled? ==> k < v.at) && s.attempts[k].answer.Failed?
      ensures s.EndedAt(k) < s.LastOK(k) + s.lease
    {
      assert !s.GivesUp(k);
    }
  }

  // The bound is attained: lease 8, the claim sent as the loop starts, four failures, the last one slow.
  lemma BoundAttained()
    ensures var slow, quick := Attempt(Failed, 2), Attempt(Failed, 0);
            var s := Session(8, 0, 0, [quick, quick, quick, slow]);
            s.Valid() && s.GivesUp(3) && (forall k :: 0 <= k < 3 ==> !s.GivesUp(k)) && s.EndedAt(3) == 5 * s.Interval()
  {
    var slow, quick := Attempt(Failed, 2), Attempt(Failed, 0);
    var s := Session(8, 0, 0, [quick, quick, quick, slow]);
    LastOKUnchanged(s, 0, 1);
    LastOKUnchanged(s, 0, 2);
    LastOKUnchanged(s, 0, 3);
  }
}
