/** settle: what a worker does with the outcome of its Processor, and what that means for every run in which
    all workers share one retry limit. */
module Settlement {
  import opened Basics
  import opened TaskMachine
  import opened Runs
  import opened Claims
  import RenewLoop
  import Backoff

  datatype Config = Config(maxRetries: nat, backoff: Backoff.Policy)

  // What Process returned. A retryable error is one that IsRetryableError recognises.
  datatype Outcome = Succeeded | Panicked(reason: string) | Retryable(reason: string) | Permanent(reason: string)

  datatype Action = Leave | AckIt | RetryIt(delay: int, reason: string) | FailIt(reason: string)

  const EXHAUSTED := "retries exhausted: "

  method Settle(cfg: Config, d: Delivery, result: Outcome, leaseLost: bool, stopping: bool) returns (action: Action)
    requires cfg.backoff.Valid()
    ensures action == Decided(cfg, d, result, leaseLost, stopping)
    ensures action.AckIt? <==> !leaseLost && result.Succeeded?
    ensures action.Leave? <==> leaseLost || (stopping && (result.Retryable? || result.Permanent?))
    ensures action.RetryIt? <==>
      !leaseLost && (result.Panicked? || (result.Retryable? && !stopping)) && d.retries < cfg.maxRetries
    ensures action.FailIt? <==>
      && !leaseLost
      && ((result.Permanent? && !stopping)
          || ((result.Panicked? || (result.Retryable? && !stopping)) && d.retries >= cfg.maxRetries))
    ensures action.RetryIt? ==> action.delay == Backoff.Computed(cfg.backoff, d.retries).Floor
    ensures action.RetryIt? ==>
      action.reason == if result.Panicked? then "panic: " + result.reason else result.reason
    ensures action.FailIt? ==>
      action.reason == match result
                       case Permanent(reason) => reason
                       case Retryable(reason) => "retries exhausted: " + reason
                       case Panicked(reason) => "retries exhausted: " + ("panic: " + reason)
                       case Succeeded => ""
  {
    if leaseLost {
      return Leave;
    }
    if result.Succeeded? {
      return AckIt;
    }
    var isPanic := result.Panicked?;
    if !isPanic && stopping {
      return Leave;
    }
    var reason := result.reason;
    var retryable := isPanic || result.Retryable?;
    if isPanic {
      reason := "panic: " + reason;
    }
    if retryable && d.retries < cfg.maxRetries {
      var delay := Backoff.RetryDelay(cfg.backoff, d.retries);
      return RetryIt(delay, reason);
    }
    if retryable {
      reason := EXHAUSTED + reason;
    }
    action := FailIt(reason);
  }

  // The four rules of settling, each with the condition under which it applies.
  function Decided(cfg: Config, d: Delivery, result: Outcome, leaseLost: bool, stopping: bool): Action {
    var transient := result.Panicked? || result.Retryable?;
    var why := if result.Succeeded? then "" else if result.Panicked? then "panic: " + result.reason else result.reason;
    if leaseLost || (stopping && (result.Retryable? || result.Permanent?)) then Leave
    else if result.Succeeded? then AckIt
    else if transient && d.retries < cfg.maxRetries then RetryIt(Backoff.Computed(cfg.backoff, d.retries).Floor, why)
    else FailIt(if transient then EXHAUSTED + why else why)
  }

  // Step j of the run is a worker settling, without having lost its lease, a delivery it got before.
  ghost predicate Settles(o: Options, r: Run, cfg: Config, j: nat, i: nat, d: Delivery, result: Outcome, stopping: bool)
    requires j < |r.events| < |r.states|
  {
    var e := r.events[j];
    && i < j && DeliversAt(o, r, i, d)
    && (match Decided(cfg, d, result, false, stopping)
        case Leave => false
        case AckIt => e == Event.Ack(e.now, d.id, d.token)
        case RetryIt(delay, reason) => delay >= 0 && e == Event.Retry(e.now, d.id, d.token, delay, reason)
        case FailIt(reason) => e == Event.Fail(e.now, d.id, d.token, reason))
  }

  ghost predicate SettledByWorker(o: Options, r: Run, cfg: Config, j: nat)
    requires j < |r.events| < |r.states|
  {
    exists i, d, result, stopping :: Settles(o, r, cfg, j, i, d, result, stopping)
  }

  // Every Ack, Retry and Fail of the run comes from a worker.
  ghost predicate ManagerRun(o: Options, r: Run, cfg: Config) {
    && Lawful(o, r)
    && forall j: nat :: j < |r.events| && (r.events[j].Ack? || r.events[j].Retry? || r.events[j].Fail?) ==>
         SettledByWorker(o, r, cfg, j)
  }

  lemma WorkersAreDisciplined(o: Options, r: Run, cfg: Config)
    requires ManagerRun(o, r, cfg)
    ensures Disciplined(o, r, cfg.maxRetries)
  {
    forall j | 0 <= j < |r.events| && r.events[j].Retry? ensures RetryHasBudget(o, r, j, cfg.maxRetries) {
      assert SettledByWorker(o, r, cfg, j);
      var i, d, result, stopping :| Settles(o, r, cfg, j, i, d, result, stopping);
    }
  }

  /** Retry budget: when all workers share one limit, no task is ever retried more often than it allows. */
  lemma ManagerKeepsBudget(o: Options, r: Run, cfg: Config, j: nat)
    requires ManagerRun(o, r, cfg) && j < |r.states| && WithinBudget(r.states[0], cfg.maxRetries)
    ensures WithinBudget(r.states[j], cfg.maxRetries)
  {
    WorkersAreDisciplined(o, r, cfg);
    RetryBudget(o, r, j, cfg.maxRetries);
  }

  /** A Retry that takes effect waits at most the cap of the backoff. */
  lemma RetryWaits(o: Options, r: Run, cfg: Config, j: nat)
    requires ManagerRun(o, r, cfg) && cfg.backoff.Valid() && j < |r.events| && r.events[j].Retry?
    requires Current(r.states[j], r.events[j].id, r.events[j].token)
    ensures var e := r.events[j];
            e.id in r.states[j + 1].tasks
            && r.states[j + 1].tasks[e.id].phase
               == Delayed(e.now + Backoff.Computed(cfg.backoff, r.states[j].tasks[e.id].retries).Floor)
    ensures r.events[j].delay as real <= cfg.backoff.cap
  {
    var e := r.events[j];
    assert SettledByWorker(o, r, cfg, j);
    var i, d, result, stopping :| Settles(o, r, cfg, j, i, d, result, stopping);
    DeliveryStaysAccurate(o, r, i, j, d);
    Backoff.Bounded(cfg.backoff, d.retries, d.retries);
    assert StepAt(o, r, j);
    CurrentNext(o, r.states[j], e.now, e.id, e.token, e.delay, e.reason);
  }

  /** "retries exhausted" is only ever recorded for a task whose retries are used up exactly: a worker that
      fails a current delivery after a transient error does so at retries == MaxRetries. */
  lemma ExhaustedAtLimit(o: Options, r: Run, cfg: Config, j: nat, i: nat, d: Delivery, result: Outcome, stopping: bool)
    requires ManagerRun(o, r, cfg) && WithinBudget(r.states[0], cfg.maxRetries)
    requires j < |r.events| && Settles(o, r, cfg, j, i, d, result, stopping) && r.events[j].Fail?
    requires Current(r.states[j], d.id, d.token)
    ensures (result.Panicked? || result.Retryable?) ==> r.states[j].tasks[d.id].retries == cfg.maxRetries
    ensures d.id in r.states[j + 1].tasks && r.states[j + 1].tasks[d.id].phase == Failed(r.events[j].now)
    ensures r.states[j + 1].tasks[d.id].reason == match result
                                                  case Permanent(reason) => reason
                                                  case Retryable(reason) => "retries exhausted: " + reason
                                                  case Panicked(reason) => "retries exhausted: " + ("panic: " + reason)
                                                  case Succeeded => ""
  {
    assert StepAt(o, r, j);
    CurrentNext(o, r.states[j], r.events[j].now, d.id, d.token, 0, r.events[j].reason);
    WorkersAreDisciplined(o, r, cfg);
    if result.Panicked? || result.Retryable? {
      ExhaustedMeansMaxRetries(o, r, i, j, d, cfg.maxRetries);
    }
  }

  /** The local lease clock is conservative. Let the loop's last successful request before request k be the
      claim or renewal that step i of the run granted. If request k fails and the loop still carries on, then
      up to the end of that request the engine keeps the lease for this worker and delivers the task to
      nobody, provided the worker itself has not settled. */
  lemma TrustedLeaseIsHeld(o: Options, r: Run, s: RenewLoop.Session, v: RenewLoop.Verdict, lastOK: int, k: nat,
                           i: nat, j: nat, id: Id, token: Token)
    requires s.Valid() && s.lease == o.lease && RenewLoop.IsVerdict(s, v, lastOK)
    requires k < |s.attempts| && s.attempts[k].answer.Failed? && (v.Cancelled? ==> k < v.at)
    requires Lawful(o, r) && i < j < |r.events| && StepAt(o, r, i) && Grants(o, r.states[i], r.events[i], id, token)
    requires s.LastOK(k) <= r.events[i].now
    requires forall x :: i < x <= j && Presents(r.events[x], id, token) ==> r.events[x].Renew?
    requires r.events[j].now <= s.EndedAt(k)
    ensures Current(r.states[j], id, token) && r.states[j].tasks[id].phase.leaseUntil > r.events[j].now
    ensures StepAt(o, r, j)
    ensures ReplyTo(o, r.states[j], r.events[j]).Delivered? ==> ReplyTo(o, r.states[j], r.events[j]).delivery.id != id
  {
    RenewLoop.NeverTooEarly(s, v, lastOK);
    LeaseExclusion(o, r, i, j, id, token, s.LastOK(k));
  }

  // ------------------------------------------------------------------ the clock of the Redis engine

  // The manager measures nanoseconds; the scripts see whole milliseconds of time and of the lease.
  const MILLISECOND: nat := 1000000

  function Millis(ns: nat): nat {
    ns / MILLISECOND
  }

  // By how much truncating the grant and the lease can bring a takeover forward.
  function Cut(grant: nat, lease: nat): nat {
    grant % MILLISECOND + lease % MILLISECOND
  }

  // No server that counts milliseconds ends a lease granted at this instant more than m too early.
  ghost predicate Covers(grant: nat, lease: nat, m: nat) {
    forall takeover: nat :: Millis(takeover) >= Millis(grant) + Millis(lease) ==> takeover + m >= grant + lease
  }

  lemma CoversIff(grant: nat, lease: nat, m: nat)
    ensures Covers(grant, lease, m) <==> m >= Cut(grant, lease)
  {
    if m < Cut(grant, lease) {
      assert Millis(SoonestTakeover(grant, lease)) == Millis(grant) + Millis(lease);
    }
  }

  function SoonestTakeover(grant: nat, lease: nat): (at: nat)
    ensures Millis(at) == Millis(grant) + Millis(lease) && at + Cut(grant, lease) == grant + lease
  {
    (Millis(grant) + Millis(lease)) * MILLISECOND
  }

  /** A lease never ends early exactly if it and the instant of its grant are whole milliseconds. */
  lemma NeverEarlyIff(grant: nat, lease: nat)
    ensures Covers(grant, lease, 0) <==> grant % 1000000 == 0 && lease % 1000000 == 0
  {
    CoversIff(grant, lease, 0);
  }

  /** The margin that covers every grant of a configured lease; it is never zero. */
  function Margin(lease: nat): nat {
    lease % MILLISECOND + MILLISECOND - 1
  }

  lemma MarginIff(lease: nat, m: nat)
    ensures (forall grant: nat :: Covers(grant, lease, m)) <==> m >= Margin(lease)
  {
    forall grant: nat ensures Covers(grant, lease, m) <==> m >= Cut(grant, lease) {
      CoversIff(grant, lease, m);
    }
    assert Covers(MILLISECOND - 1, lease, m) <==> m >= Margin(lease);
  }

  /** The loop trusts its lease at instant at: request k of the session has failed and the loop carries on, step
      i of the run, at instant grant, granted the lease, and step j is what the engine does at instant at. The
      session is in nanoseconds, the run in milliseconds. */
  ghost predicate Trusting(o: Options, r: Run, s: RenewLoop.Session, v: RenewLoop.Verdict, lastOK: int, k: nat,
                           i: nat, j: nat, grant: nat, at: nat, id: Id, token: Token) {
    && s.Valid() && o.lease == Millis(s.lease) && RenewLoop.IsVerdict(s, v, lastOK)
    && k < |s.attempts| && s.attempts[k].answer.Failed? && (v.Cancelled? ==> k < v.at)
    && Lawful(o, r) && i < j < |r.events| && StepAt(o, r, i) && Grants(o, r.states[i], r.events[i], id, token)
    && s.LastOK(k) <= grant && r.events[i].now == Millis(grant) && r.events[j].now == Millis(at)
    && (forall x :: i < x <= j && Presents(r.events[x], id, token) ==> r.events[x].Renew?)
  }

  // The claim is current at step j and that step delivers the task to nobody.
  ghost predicate KeptAt(o: Options, r: Run, j: nat, id: Id, token: Token) {
    && j < |r.events| < |r.states| && StepAt(o, r, j)
    && Current(r.states[j], id, token) && r.states[j].tasks[id].phase.leaseUntil > r.events[j].now
    && (var reply := ReplyTo(o, r.states[j], r.events[j]); reply.Delivered? ==> reply.delivery.id != id)
  }

  /** On Redis the trusted lease is held up to Cut before the end of the failed request. */
  lemma TrustedLeaseIsHeldOnRedis(o: Options, r: Run, s: RenewLoop.Session, v: RenewLoop.Verdict, lastOK: int, k: nat,
                                  i: nat, j: nat, grant: nat, at: nat, id: Id, token: Token)
    requires Trusting(o, r, s, v, lastOK, k, i, j, grant, at, id, token)
    requires at + Cut(grant, s.lease) <= s.EndedAt(k)
    ensures KeptAt(o, r, j, id, token)
  {
    RenewLoop.NeverTooEarly(s, v, lastOK);
    CoversIff(grant, s.lease, Cut(grant, s.lease));
    assert Millis(at) < Millis(grant) + Millis(s.lease);
    LeaseExclusion(o, r, i, j, id, token, r.events[i].now);
  }

  // A loop that keeps trusting the lease until one nanosecond before it ends: two failed renewals.
  function LastTrust(lease: nat, grant: nat): RenewLoop.Session
    requires lease >= 3
  {
    var q := lease / 3;
    var loopStart := grant + if lease % 3 == 2 then 1 else 0;
    var took := grant + lease - 1 - loopStart - 2 * q;
    RenewLoop.Session(lease, grant, loopStart,
        [RenewLoop.Attempt(RenewLoop.Failed, 0), RenewLoop.Attempt(RenewLoop.Failed, took)])
  }

  lemma LastTrustHolds(lease: nat, grant: nat)
    requires lease >= 3
    ensures var s := LastTrust(lease, grant);
      s.Valid() && RenewLoop.IsVerdict(s, RenewLoop.Kept, grant) && s.LastOK(1) == grant
          && s.EndedAt(1) == grant + lease - 1
  {
    var s := LastTrust(lease, grant);
    assert s.LastOK(0) == grant && s.LastOK(1) == grant && s.LastOK(2) == grant;
    assert s.EndedAt(0) - grant < lease && s.EndedAt(1) == grant + lease - 1;
    assert !s.GivesUp(0) && !s.GivesUp(1);
  }

  // A task is enqueued and claimed at the instant claimed, and claimed again at the instant again.
  function ReclaimStates(o: Options, claimed: nat, again: nat): seq<State> {
    var held, taken := Inflight("first", claimed + o.lease), Inflight("second", again + o.lease);
    [EMPTY,
     State(map["a" := Task([0], false, Ready, 0, 0, "")], ["a"], map[], {}),
     State(map["a" := Task([0], false, held, 1, 0, "")], [], map[], {"first"}),
     State(map["a" := Task([0], false, taken, 2, 0, "")], [], map[], {"first", "second"})]
  }

  function ReclaimRun(o: Options, claimed: nat, again: nat): Run {
    Run(ReclaimStates(o, claimed, again),
        [Event.Enqueue(claimed, "a", [0], false), Event.Receive(claimed, "first", [], Fresh),
         Event.Receive(again, "second", [], Recovered("a"))])
  }

  lemma FirstEnqueue(o: Options, claimed: nat, again: nat)
    ensures var s, e := ReclaimStates(o, claimed, again), Event.Enqueue(claimed, "a", [0], false);
            Enabled(o, s[0], e) && Next(o, s[0], e) == s[1]
  {
  }

  lemma FirstClaim(o: Options, claimed: nat, again: nat)
    ensures var s, e := ReclaimStates(o, claimed, again), Event.Receive(claimed, "first", [], Fresh);
      && Enabled(o, s[1], e) && Next(o, s[1], e) == s[2]
      && ReplyTo(o, s[1], e) == Delivered(Delivery("a", [0], "first", 1, 0, false))
  {
    var s := ReclaimStates(o, claimed, again);
    assert Promote(s[1], []) == s[1] && s[1].ready[1..] == [];
    ReceiveNext(o, s[1], claimed, "first", [], Fresh);
  }

  lemma SecondClaim(o: Options, claimed: nat, again: nat)
    requires again >= claimed + o.lease
    ensures var s, e := ReclaimStates(o, claimed, again), Event.Receive(again, "second", [], Recovered("a"));
      && Enabled(o, s[2], e) && Next(o, s[2], e) == s[3]
      && ReplyTo(o, s[2], e) == Delivered(Delivery("a", [0], "second", 2, 0, true))
  {
    var s := ReclaimStates(o, claimed, again);
    assert Promote(s[2], []) == s[2];
    ReceiveNext(o, s[2], again, "second", [], Recovered("a"));
  }

  lemma EmptyIsInv()
    ensures TaskMachine.Inv(EMPTY)
  {
  }

  lemma ReclaimRunLawful(o: Options, claimed: nat, again: nat)
    requires ValidOptions(o) && again >= claimed + o.lease
    ensures var r := ReclaimRun(o, claimed, again);
      && Lawful(o, r) && StepAt(o, r, 1) && Grants(o, r.states[1], r.events[1], "a", "first")
      && StepAt(o, r, 2) && ReplyTo(o, r.states[2], r.events[2]) == Delivered(Delivery("a", [0], "second", 2, 0, true))
  {
    hide Enabled, Next, ReplyTo, Inv;
    var r := ReclaimRun(o, claimed, again);
    FirstEnqueue(o, claimed, again);
    FirstClaim(o, claimed, again);
    SecondClaim(o, claimed, again);
    EmptyIsInv();
    assert StepAt(o, r, 0) && StepAt(o, r, 1) && StepAt(o, r, 2);
  }

  /** Lease exclusion fails on Redis. Unless grant and lease are whole milliseconds there is a lawful run in which a
      Receive hands the task to someone else while the loop of the holder still trusts its lease: the takeover
      comes Cut before the end of the lease, the loop's failed request ends one nanosecond before it. */
  lemma EarlyTakeover(o: Options, lease: nat, grant: nat)
    requires ValidOptions(o) && lease >= MILLISECOND && o.lease == Millis(lease)
    ensures var at, s := SoonestTakeover(grant, lease), LastTrust(lease, grant);
            var r := ReclaimRun(o, Millis(grant), Millis(at));
      && Trusting(o, r, s, RenewLoop.Kept, grant, 1, 1, 2, grant, at, "a", "first")
      && at + Cut(grant, lease) == s.EndedAt(1) + 1
      && ReplyTo(o, r.states[2], r.events[2]) == Delivered(Delivery("a", [0], "second", 2, 0, true))
  {
    LastTrustHolds(lease, grant);
    ReclaimRunLawful(o, Millis(grant), Millis(SoonestTakeover(grant, lease)));
  }

  // Every lease of this length granted at this instant is held until m before the loop's failed request ends.
  ghost predicate HeldUpTo(lease: nat, grant: nat, m: nat) {
    forall o, r, s, v, lastOK, k: nat, i: nat, j: nat, at: nat, id, token ::
      Trusting(o, r, s, v, lastOK, k, i, j, grant, at, id, token) && s.lease == lease && at + m <= s.EndedAt(k)
      ==> KeptAt(o, r, j, id, token)
  }

  /** The exact condition: over all runs and all sessions the lease is held up to the margin m if and only if m is
      at least what truncation cuts off. */
  lemma HeldAtGrantIff(lease: nat, grant: nat, m: nat)
    requires lease >= MILLISECOND
    ensures HeldUpTo(lease, grant, m) <==> m >= Cut(grant, lease)
  {
    if m >= Cut(grant, lease) {
      forall o, r, s, v, lastOK, k: nat, i: nat, j: nat, at: nat, id, token |
        Trusting(o, r, s, v, lastOK, k, i, j, grant, at, id, token) && s.lease == lease && at + m <= s.EndedAt(k)
        ensures KeptAt(o, r, j, id, token)
      {
        TrustedLeaseIsHeldOnRedis(o, r, s, v, lastOK, k, i, j, grant, at, id, token);
      }
    } else {
      var o := Options(Millis(lease), 0, 0);
      EarlyTakeover(o, lease, grant);
      var at, s := SoonestTakeover(grant, lease), LastTrust(lease, grant);
      var r := ReclaimRun(o, Millis(grant), Millis(at));
      assert !KeptAt(o, r, 2, "a", "first");
    }
  }

  /** And for a configured lease, whenever it is granted: the margin must be the lease's fraction of a millisecond
      plus a millisecond less a nanosecond. So no configuration is without a gap. */
  lemma HeldOnRedisIff(lease: nat, m: nat)
    requires lease >= MILLISECOND
    ensures (forall grant: nat :: HeldUpTo(lease, grant, m)) <==> m >= Margin(lease)
    ensures !(forall grant: nat :: HeldUpTo(lease, grant, 0))
  {
    hide HeldUpTo;
    forall grant: nat ensures HeldUpTo(lease, grant, m) <==> m >= Cut(grant, lease) {
      HeldAtGrantIff(lease, grant, m);
    }
    assert HeldUpTo(lease, MILLISECOND - 1, m) ==> m >= Margin(lease);
    HeldAtGrantIff(lease, MILLISECOND - 1, 0);
  }
}
