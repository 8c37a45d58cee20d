/** The Manager's single-use lifecycle: Start, Stop and the worker goroutines, each cut into the sections that
    take effect at once (a critical section, a channel operation, one engine call). A Step names a section;
    any interleaving of sections is a lawful trace. */
module Lifecycle {
  datatype Status = Stopped | Running | Stopping

  // Where a worker goroutine is: at its loop test, inside Receive, busy with a task, sleeping, or gone.
  datatype Worker = Looping | Claiming | Handling | Sleeping | Exited

  // How far the one accepted Stop call has come; timedOut is the error it will return.
  datatype Stage =
    | NotCalled | Begun | Draining | TimedOut | Grace
    | Finishing(timedOut: bool) | Cancelled(timedOut: bool) | Closing(timedOut: bool)
    | Returned(failed: bool)

  datatype View = View(status: Status, used: bool, stage: Stage, workers: seq<Worker>, inflight: int,
                       claimCancelled: bool, procCancelled: bool, done: bool, closed: bool)

  datatype ClaimResult = GotTask | NoTask | Interrupted

  datatype Step =
    | Started(workers: nat) | StartRefused
    | StopAccepted | StopRefused
    | ClaimsCancelled | Drained | DrainTimedOut | ProcessorsCancelled | GraceOver | AllCancelled | MarkedStopped
    | Closes(closeFails: bool) | SkipsClose
    | WaitGroupDone
    | Tests(i: nat) | Claims(i: nat, result: ClaimResult) | Finishes(i: nat, panicked: bool) | Wakes(i: nat)
    | AddAdmitted | AddRefused

  const INITIAL := View(Stopped, false, NotCalled, [], 0, false, false, false, false)

  predicate At(m: View, i: nat, w: Worker) {
    i < |m.workers| && m.workers[i] == w
  }

  ghost predicate AllExited(m: View) {
    forall i :: 0 <= i < |m.workers| ==> m.workers[i].Exited?
  }

  ghost predicate Can(m: View, s: Step) {
    match s
    case Started(n) => m.status.Stopped? && !m.used && n > 0
    case StartRefused => !m.status.Stopped? || m.used
    case StopAccepted => m.status.Running?
    case StopRefused => !m.status.Running?
    case ClaimsCancelled => m.stage.Begun?
    case Drained => m.done && (m.stage.Draining? || m.stage.Grace?)
    case DrainTimedOut => m.stage.Draining?
    case ProcessorsCancelled => m.stage.TimedOut?
    case GraceOver => m.stage.Grace?
    case AllCancelled => m.stage.Finishing?
    case MarkedStopped => m.stage.Cancelled?
    case Closes(_) => m.stage.Closing? && m.done
    case SkipsClose => m.stage.Closing? && !m.done
    case WaitGroupDone => m.claimCancelled && AllExited(m) && !m.done
    case Tests(i) => At(m, i, Looping)
    case Claims(i, result) => At(m, i, Claiming) && (result.Interrupted? ==> m.claimCancelled)
    case Finishes(i, _) => At(m, i, Handling)
    case Wakes(i) => At(m, i, Sleeping)
    case AddAdmitted => m.status.Running?
    case AddRefused => !m.status.Running?
  }

  function Move(m: View, i: nat, w: Worker): View
    requires i < |m.workers|
  {
    m.(workers := m.workers[i := w])
  }

  ghost function After(m: View, s: Step): View
    requires Can(m, s)
  {
    match s
    case Started(n) =>
      m.(status := Running, used := true, claimCancelled := false, procCancelled := false,
         workers := seq(n, _ => Looping))
    case StopAccepted => m.(status := Stopping, stage := Begun)
    case ClaimsCancelled => m.(claimCancelled := true, stage := Draining)
    case Drained => m.(stage := Finishing(m.stage.Grace?))
    case DrainTimedOut => m.(stage := TimedOut)
    case ProcessorsCancelled => m.(procCancelled := true, stage := Grace)
    case GraceOver => m.(stage := Finishing(true))
    case AllCancelled => m.(procCancelled := true, stage := Cancelled(m.stage.timedOut))
    case MarkedStopped => m.(status := Stopped, stage := Closing(m.stage.timedOut))
    case Closes(closeFails) => m.(closed := true, stage := Returned(m.stage.timedOut || closeFails))
    case SkipsClose => m.(stage := Returned(m.stage.timedOut))
    case WaitGroupDone => m.(done := true)
    case Tests(i) => Move(m, i, if m.claimCancelled then Exited else Claiming)
    case Claims(i, result) =>
      (match result
       case GotTask => Move(m, i, Handling).(inflight := m.inflight + 1)
       case NoTask => Move(m, i, Sleeping)
       case Interrupted => Move(m, i, Looping))
    case Finishes(i, panicked) => Move(m, i, if panicked then Sleeping else Looping).(inflight := m.inflight - 1)
    case Wakes(i) => Move(m, i, Looping)
    case StartRefused => m
    case StopRefused => m
    case AddAdmitted => m
    case AddRefused => m
  }

  // ------------------------------------------------------------------ the invariant

  ghost function Busy(workers: seq<Worker>): nat {
    if workers == [] then 0 else Busy(workers[..|workers| - 1]) + if workers[|workers| - 1].Handling? then 1 else 0
  }

  ghost predicate Phases(m: View) {
    && (m.status.Running? ==> m.used && m.stage.NotCalled?)
    && (m.status.Stopped? && !m.used ==> m.stage.NotCalled? && m.workers == [])
    && (m.status.Stopped? && m.used ==> m.stage.Closing? || m.stage.Returned?)
    && (m.status.Stopping? ==> m.used && !m.stage.NotCalled? && !m.stage.Closing? && !m.stage.Returned?)
  }

  ghost predicate Endings(m: View) {
    && (m.claimCancelled <==> !m.stage.NotCalled? && !m.stage.Begun?)
    && (m.done ==> m.claimCancelled && AllExited(m))
    && (m.closed ==> m.done && m.stage.Returned?)
    && ((m.stage.Finishing? || m.stage.Cancelled? || m.stage.Closing?) && !m.stage.timedOut ==> m.done)
    && (m.stage.Returned? && !m.stage.failed ==> m.closed)
    && (m.procCancelled <==>
          m.stage.Grace? || (m.stage.Finishing? && m.stage.timedOut)
          || m.stage.Cancelled? || m.stage.Closing? || m.stage.Returned?)
  }

  ghost predicate Inv(m: View) {
    Phases(m) && Endings(m) && m.inflight == Busy(m.workers)
  }

  lemma {:induction false} BusyMove(workers: seq<Worker>, i: nat, w: Worker)
    requires i < |workers|
    ensures Busy(workers[i := w])
            == Busy(workers) + (if w.Handling? then 1 else 0) - (if workers[i].Handling? then 1 else 0)
    decreases |workers|
  {
    var n := |workers| - 1;
    if i < n {
      BusyMove(workers[..n], i, w);
      assert workers[i := w][..n] == workers[..n][i := w];
    } else {
      assert workers[i := w][..n] == workers[..n];
    }
  }

  lemma {:induction false} NoneBusy(workers: seq<Worker>)
    requires forall i :: 0 <= i < |workers| ==> !workers[i].Handling?
    ensures Busy(workers) == 0
    decreases |workers|
  {
    if workers != [] {
      NoneBusy(workers[..|workers| - 1]);
    }
  }

  // One worker that has not exited moves on.
  lemma MoveKeepsInv(m: View, i: nat, w: Worker)
    requires Inv(m) && i < |m.workers| && !m.workers[i].Exited?
    ensures Inv(Move(m, i, w).(inflight := m.inflight + (if w.Handling? then 1 else 0)
                                                      - (if m.workers[i].Handling? then 1 else 0)))
  {
    hide Busy;
    BusyMove(m.workers, i, w);
  }

  lemma StartKeepsInv(m: View, n: nat)
    requires Inv(m) && Can(m, Started(n))
    ensures Inv(After(m, Started(n)))
  {
    NoneBusy(seq(n, _ => Looping));
  }

  ghost predicate OfWorker(s: Step) {
    s.Tests? || s.Claims? || s.Finishes? || s.Wakes?
  }

  lemma WorkerKeepsInv(m: View, s: Step)
    requires Inv(m) && Can(m, s) && OfWorker(s)
    ensures Inv(After(m, s))
  {
    hide Inv;
    MoveKeepsInv(m, s.i, After(m, s).workers[s.i]);
  }

  lemma StopKeepsInv(m: View, s: Step)
    requires Inv(m) && Can(m, s) && !s.Started? && !OfWorker(s)
    ensures Inv(After(m, s))
  {
    hide Busy;
  }

  lemma StepKeepsInv(m: View, s: Step)
    requires Inv(m) && Can(m, s)
    ensures Inv(After(m, s))
  {
    hide Inv, Can, After;
    if s.Started? {
      StartKeepsInv(m, s.workers);
    } else if OfWorker(s) {
      WorkerKeepsInv(m, s);
    } else {
      StopKeepsInv(m, s);
    }
  }

  // ------------------------------------------------------------------ traces

  datatype Trace = Trace(views: seq<View>, steps: seq<Step>) {
    function Last(): View
      requires views != []
    {
      views[|views| - 1]
    }
  }

  ghost predicate StepAt(t: Trace, k: int)
    requires 0 <= k < |t.steps| < |t.views|
  {
    Can(t.views[k], t.steps[k]) && t.views[k + 1] == After(t.views[k], t.steps[k])
  }

  ghost predicate Lawful(t: Trace) {
    && |t.views| == |t.steps| + 1 && t.views[0] == INITIAL
    && forall k :: 0 <= k < |t.steps| ==> StepAt(t, k)
  }

  lemma {:induction false} InvAlong(t: Trace, k: nat)
    requires Lawful(t) && k < |t.views|
    ensures Inv(t.views[k])
  {
    if k > 0 {
      InvAlong(t, k - 1);
      assert StepAt(t, k - 1);
      StepKeepsInv(t.views[k - 1], t.steps[k - 1]);
    }
  }

  // The trace grew by this step.
  ghost predicate Extends(a: Trace, b: Trace, s: Step) {
    b.steps == a.steps + [s] && |b.views| == |a.views| + 1 && b.views[..|a.views|] == a.views
  }

  lemma ExtendLawful(t: Trace, s: Step, v: View)
    requires Lawful(t) && Can(t.Last(), s) && v == After(t.Last(), s)
    ensures var b := Trace(t.views + [v], t.steps + [s]); Lawful(b) && Extends(t, b, s) && b.Last() == v
  {
    hide Can, After;
    var b := Trace(t.views + [v], t.steps + [s]);
    forall k | 0 <= k < |b.steps| ensures StepAt(b, k) {
      assert k < |t.steps| ==> StepAt(t, k);
    }
  }

  // ------------------------------------------------------------------ the view told from the history

  ghost predicate HasStarted(steps: seq<Step>) {
    exists a :: 0 <= a < |steps| && steps[a].Started?
  }

  // Tasks taken and not yet finished.
  function Open(steps: seq<Step>): int {
    if steps == [] then 0
    else
      var last := steps[|steps| - 1];
      Open(steps[..|steps| - 1]) + match last
                                   case Claims(_, GotTask) => 1
                                   case Finishes(_, _) => -1
                                   case _ => 0
  }

  ghost predicate TimedOutSoFar(m: View) {
    m.stage.TimedOut? || m.stage.Grace?
    || ((m.stage.Finishing? || m.stage.Cancelled? || m.stage.Closing?) && m.stage.timedOut)
  }

  ghost predicate ToldStart(m: View, steps: seq<Step>) {
    && (m.used <==> HasStarted(steps))
    && (m.stage.NotCalled? <==> StopAccepted !in steps)
    && (m.claimCancelled <==> ClaimsCancelled in steps)
    && (m.done <==> WaitGroupDone in steps)
  }

  ghost predicate ToldEnd(m: View, steps: seq<Step>) {
    && (m.stage.Closing? || m.stage.Returned? <==> MarkedStopped in steps)
    && (m.closed <==> Closes(true) in steps || Closes(false) in steps)
    && (m.stage.Returned? ==> (m.stage.failed <==> DrainTimedOut in steps || Closes(true) in steps))
    && (!m.stage.Returned? ==> (TimedOutSoFar(m) <==> DrainTimedOut in steps))
    && (m.procCancelled <==> ProcessorsCancelled in steps || AllCancelled in steps)
    && (DrainTimedOut in steps ==> m.stage.TimedOut? || ProcessorsCancelled in steps)
  }

  // What the fields say about the past.
  ghost predicate Told(m: View, steps: seq<Step>) {
    ToldStart(m, steps) && ToldEnd(m, steps) && m.inflight == Open(steps)
  }

  lemma HasStartedMore(steps: seq<Step>, s: Step)
    ensures HasStarted(steps + [s]) <==> HasStarted(steps) || s.Started?
  {
    if s.Started? {
      assert (steps + [s])[|steps|].Started?;
    }
    if a :| 0 <= a < |steps| && steps[a].Started? {
      assert (steps + [s])[a].Started?;
    }
  }

  lemma ToldStartStep(m: View, steps: seq<Step>, s: Step)
    requires Inv(m) && Can(m, s) && ToldStart(m, steps)
    ensures ToldStart(After(m, s), steps + [s])
  {
    hide HasStarted, Busy, AllExited;
    HasStartedMore(steps, s);
  }

  lemma ToldEndStep(m: View, steps: seq<Step>, s: Step)
    requires Inv(m) && Can(m, s) && ToldEnd(m, steps)
    ensures ToldEnd(After(m, s), steps + [s])
  {
    hide Busy, AllExited;
  }

  lemma OpenStep(m: View, steps: seq<Step>, s: Step)
    requires Can(m, s)
    ensures After(m, s).inflight - m.inflight == Open(steps + [s]) - Open(steps)
  {
    hide AllExited;
    assert (steps + [s])[..|steps|] == steps;
  }

  lemma ToldStep(m: View, steps: seq<Step>, s: Step)
    requires Inv(m) && Can(m, s) && Told(m, steps)
    ensures Told(After(m, s), steps + [s])
  {
    hide ToldStart, ToldEnd, Inv, Can, After, Open;
    ToldStartStep(m, steps, s);
    ToldEndStep(m, steps, s);
    OpenStep(m, steps, s);
  }

  lemma {:induction false} ToldAlong(t: Trace, k: nat)
    requires Lawful(t) && k < |t.views|
    ensures Told(t.views[k], t.steps[..k])
  {
    hide Told, Inv, Can, After;
    if k == 0 {
      ToldAtFirst();
      assert t.steps[..0] == [];
    } else {
      ToldAlong(t, k - 1);
      InvAlong(t, k - 1);
      assert StepAt(t, k - 1);
      ToldStep(t.views[k - 1], t.steps[..k - 1], t.steps[k - 1]);
      assert t.steps[..k] == t.steps[..k - 1] + [t.steps[k - 1]];
    }
  }

  lemma ToldAtFirst()
    ensures Told(INITIAL, [])
  {
  }

  /** The manager is running exactly if a Start has been accepted and no Stop has. */
  lemma RunningIff(t: Trace, k: nat)
    requires Lawful(t) && k < |t.views|
    ensures t.views[k].status.Running? <==> HasStarted(t.steps[..k]) && StopAccepted !in t.steps[..k]
  {
    InvAlong(t, k);
    ToldAlong(t, k);
    hide HasStarted, Lawful;
  }

  /** The Processors' context is cancelled exactly from one of Stop's two cancellations on: by the time a drain that
      timed out is waited for no longer, and in any case before Stop marks the manager stopped. */
  lemma ProcessorsCancelledIff(t: Trace, k: nat)
    requires Lawful(t) && k < |t.views|
    ensures t.views[k].procCancelled <==> ProcessorsCancelled in t.steps[..k] || AllCancelled in t.steps[..k]
    ensures GraceOver in t.steps[..k] || MarkedStopped in t.steps[..k] ==> t.views[k].procCancelled
  {
    InvAlong(t, k);
    ToldAlong(t, k);
    GraceCancels(t, k);
    hide HasStarted, Lawful;
  }

  lemma {:induction false} GraceCancels(t: Trace, k: nat)
    requires Lawful(t) && k < |t.views|
    ensures GraceOver in t.steps[..k] ==> t.views[k].procCancelled
  {
    if k > 0 {
      GraceCancels(t, k - 1);
      InvAlong(t, k - 1);
      assert StepAt(t, k - 1);
      assert t.steps[..k] == t.steps[..k - 1] + [t.steps[k - 1]];
      CancelStays(t.views[k - 1], t.steps[k - 1]);
    }
  }

  lemma CancelStays(m: View, s: Step)
    requires Inv(m) && Can(m, s)
    ensures m.procCancelled || s.GraceOver? ==> After(m, s).procCancelled
  {
    hide Busy, AllExited;
  }

  /** The in-flight counter is the number of tasks taken and not finished, and the number of busy workers. */
  lemma InflightCounts(t: Trace, k: nat)
    requires Lawful(t) && k < |t.views|
    ensures t.views[k].inflight == Open(t.steps[..k]) == Busy(t.views[k].workers)
  {
    InvAlong(t, k);
    ToldAlong(t, k);
  }

  // How far along Stopped -> Running -> Stopping -> Stopped the manager is.
  function Progress(m: View): nat {
    match m.status
    case Running => 1
    case Stopping => 2
    case Stopped => if m.used then 3 else 0
  }

  lemma ProgressStep(m: View, s: Step)
    requires Inv(m) && Can(m, s)
    ensures Progress(m) <= Progress(After(m, s)) <= Progress(m) + 1
    ensures s.Started? ==> Progress(m) == 0 && Progress(After(m, s)) == 1
    ensures s.StopAccepted? ==> Progress(m) == 1 && Progress(After(m, s)) == 2
    ensures Progress(m) == 0 && Progress(After(m, s)) == 1 ==> s.Started?
    ensures Progress(m) == 1 && Progress(After(m, s)) == 2 ==> s.StopAccepted?
  {
  }

  /** The status only ever moves forward through Stopped, Running, Stopping, Stopped, one at a time. */
  lemma {:induction false} StatusMovesForward(t: Trace, j: nat, k: nat)
    requires Lawful(t) && j <= k < |t.views|
    ensures Progress(t.views[j]) <= Progress(t.views[k])
    ensures k == j + 1 ==> Progress(t.views[k]) <= Progress(t.views[j]) + 1
  {
    if j < k {
      StatusMovesForward(t, j, k - 1);
      InvAlong(t, k - 1);
      assert StepAt(t, k - 1);
      ProgressStep(t.views[k - 1], t.steps[k - 1]);
    }
  }

  /** At most one Start and at most one Stop are ever accepted. */
  lemma StartOnce(t: Trace, j: nat, k: nat)
    requires Lawful(t) && j <= k < |t.steps|
    requires (t.steps[j].Started? && t.steps[k].Started?) || (t.steps[j].StopAccepted? && t.steps[k].StopAccepted?)
    ensures j == k
  {
    InvAlong(t, j);
    InvAlong(t, k);
    assert StepAt(t, j) && StepAt(t, k);
    ProgressStep(t.views[j], t.steps[j]);
    ProgressStep(t.views[k], t.steps[k]);
    if j < k {
      StatusMovesForward(t, j + 1, k);
    }
  }

  ghost predicate AwayFromClaims(m: View, i: nat) {
    m.claimCancelled && i < |m.workers| && !m.workers[i].Claiming?
  }

  lemma AwayStep(m: View, s: Step, i: nat)
    requires Inv(m) && Can(m, s) && AwayFromClaims(m, i)
    ensures AwayFromClaims(After(m, s), i)
  {
  }

  lemma {:induction false} StaysAway(t: Trace, j: nat, k: nat, i: nat)
    requires Lawful(t) && j <= k < |t.views| && AwayFromClaims(t.views[j], i)
    ensures AwayFromClaims(t.views[k], i)
  {
    if j < k {
      StaysAway(t, j, k - 1, i);
      InvAlong(t, k - 1);
      assert StepAt(t, k - 1);
      AwayStep(t.views[k - 1], t.steps[k - 1], i);
    }
  }

  /** Once claims are cancelled a worker takes on at most one more task. */
  lemma OneMoreTask(t: Trace, j: nat, k: nat, i: nat)
    requires Lawful(t) && j <= k < |t.steps| && t.views[j].claimCancelled
    requires t.steps[j] == Claims(i, GotTask) && t.steps[k] == Claims(i, GotTask)
    ensures j == k
  {
    assert StepAt(t, j) && StepAt(t, k);
    if j < k {
      StaysAway(t, j + 1, k, i);
    }
  }

  ghost predicate Over(m: View) {
    m.done && AllExited(m)
  }

  lemma OverStep(m: View, s: Step)
    requires Inv(m) && Can(m, s) && Over(m)
    ensures Over(After(m, s)) && After(m, s).workers == m.workers
    ensures !s.Tests? && !s.Claims? && !s.Finishes? && !s.Wakes? && !s.Started?
  {
  }

  lemma {:induction false} OverStays(t: Trace, j: nat, k: nat)
    requires Lawful(t) && j <= k < |t.views| && Over(t.views[j])
    ensures Over(t.views[k])
  {
    if j < k {
      OverStays(t, j, k - 1);
      InvAlong(t, k - 1);
      assert StepAt(t, k - 1);
      OverStep(t.views[k - 1], t.steps[k - 1]);
    }
  }

  /** The engine is closed only after every worker has exited and every task is settled, and no worker does
      anything from then on. */
  lemma ClosedAfterWorkers(t: Trace, j: nat, k: nat)
    requires Lawful(t) && j <= k < |t.steps| && t.views[j].closed
    ensures AllExited(t.views[k]) && t.views[k].inflight == 0
    ensures !t.steps[k].Tests? && !t.steps[k].Claims? && !t.steps[k].Finishes? && !t.steps[k].Wakes?
  {
    InvAlong(t, j);
    OverStays(t, j, k);
    InvAlong(t, k);
    assert StepAt(t, k);
    OverStep(t.views[k], t.steps[k]);
    NoneBusy(t.views[k].workers);
  }

  /** When Stop has returned nil, the workers are gone, no task is in flight and the engine is closed. */
  lemma StopNil(t: Trace, k: nat)
    requires Lawful(t) && k < |t.views| && t.views[k].stage == Returned(false)
    ensures t.views[k].closed && AllExited(t.views[k]) && t.views[k].inflight == 0 && Progress(t.views[k]) == 3
  {
    InvAlong(t, k);
    NoneBusy(t.views[k].workers);
  }

  ghost predicate Failing(m: View) {
    TimedOutSoFar(m) || (m.stage.Returned? && m.stage.failed)
  }

  /** A Processor is interrupted only by a Stop that reports an error: while some worker still runs, the
      Processors' context is cancelled only if the drain has timed out. */
  lemma InterruptedMeansTimeout(t: Trace, k: nat)
    requires Lawful(t) && k < |t.views| && t.views[k].procCancelled && !AllExited(t.views[k])
    ensures Failing(t.views[k])
  {
    InvAlong(t, k);
  }

  lemma FailingStep(m: View, s: Step)
    requires Inv(m) && Can(m, s) && Failing(m)
    ensures Failing(After(m, s))
  {
  }

  /** ... and that Stop does return an error. */
  lemma {:induction false} FailingStays(t: Trace, j: nat, k: nat)
    requires Lawful(t) && j <= k < |t.views| && Failing(t.views[j])
    ensures Failing(t.views[k]) && t.views[k].stage != Returned(false)
  {
    if j < k {
      FailingStays(t, j, k - 1);
      InvAlong(t, k - 1);
      assert StepAt(t, k - 1);
      FailingStep(t.views[k - 1], t.steps[k - 1]);
    }
  }

  /** Data is admitted exactly from the accepted Start until the accepted Stop. */
  lemma AddsBetween(t: Trace, k: nat)
    requires Lawful(t) && k < |t.steps| && (t.steps[k].AddAdmitted? || t.steps[k].AddRefused?)
    ensures t.steps[k].AddAdmitted? <==> HasStarted(t.steps[..k]) && StopAccepted !in t.steps[..k]
  {
    hide HasStarted;
    assert StepAt(t, k);
    RunningIff(t, k);
  }

  // ------------------------------------------------------------------ the object itself

  datatype StartError = StartOk | AlreadyRunning | ManagerClosed

  // What the engine's Receive answered: a task, an empty queue, or any other error.
  datatype Answer = Task | Empty | Failure

  // What the workers' loop does with an answer of Receive.
  function ResultOf(answer: Answer, cancelled: bool): ClaimResult {
    match answer
    case Task => GotTask
    case Empty => NoTask
    case Failure => if cancelled then Interrupted else NoTask
  }

  // Worker i has taken on no task since claims were cancelled.
  ghost predicate TakenOnce(t: Trace, i: nat) {
    forall k :: 0 <= k < |t.steps| < |t.views| && t.views[k].claimCancelled ==> t.steps[k] != Claims(i, GotTask)
  }

  lemma OneMoreHere(a: Trace, b: Trace, i: nat)
    requires Lawful(a) && Lawful(b) && Extends(a, b, Claims(i, GotTask))
    ensures TakenOnce(a, i)
  {
    forall k | 0 <= k < |a.steps| && a.views[k].claimCancelled ensures a.steps[k] != Claims(i, GotTask) {
      assert b.steps[k] == a.steps[k] && b.views[k] == a.views[k];
      assert b.steps[|a.steps|] == Claims(i, GotTask);
      if b.steps[k] == Claims(i, GotTask) {
        OneMoreTask(b, k, |a.steps|, i);
      }
    }
  }

  // Workers whose wg.Done is still to come.
  ghost function Remaining(workers: seq<Worker>): nat {
    if workers == [] then 0
    else Remaining(workers[..|workers| - 1]) + if workers[|workers| - 1].Exited? then 0 else 1
  }

  lemma {:induction false} RemainingMove(workers: seq<Worker>, i: nat, w: Worker)
    requires i < |workers|
    ensures Remaining(workers[i := w])
            == Remaining(workers) + (if w.Exited? then 0 else 1) - (if workers[i].Exited? then 0 else 1)
    decreases |workers|
  {
    var n := |workers| - 1;
    if i < n {
      RemainingMove(workers[..n], i, w);
      assert workers[i := w][..n] == workers[..n][i := w];
    } else {
      assert workers[i := w][..n] == workers[..n];
    }
  }

  lemma {:induction false} AllRemaining(workers: seq<Worker>)
    ensures (forall i :: 0 <= i < |workers| ==> !workers[i].Exited?) ==> Remaining(workers) == |workers|
    ensures Remaining(workers) == 0 <==> forall i :: 0 <= i < |workers| ==> workers[i].Exited?
    decreases |workers|
  {
    if workers != [] {
      AllRemaining(workers[..|workers| - 1]);
    }
  }

  class Manager {
    const workerCount: nat
    var status: Status
    var used: bool
    var inflight: int
    var claimCancelled: bool
    var procCancelled: bool
    var wg: int
    var done: bool
    var closed: bool
    var stopErr: bool
    // Program counters of Stop and of the workers, and every section executed so far.
    ghost var stage: Stage
    ghost var workers: seq<Worker>
    ghost var trace: Trace

    ghost function Now(): View
      reads this
    {
      View(status, used, stage, workers, inflight, claimCancelled, procCancelled, done, closed)
    }

    ghost predicate Valid()
      reads this
    {
      && workerCount > 0 && |workers| == (if used then workerCount else 0)
      && Lawful(trace) && trace.Last() == Now() && wg == Remaining(workers)
      && ((stage.Finishing? || stage.Cancelled? || stage.Closing?) ==> stopErr == stage.timedOut)
    }

    constructor (workerCount: nat)
      requires workerCount > 0
      ensures Valid() && this.workerCount == workerCount && trace == Trace([INITIAL], [])
    {
      this.workerCount := workerCount;
      status, used, inflight, wg := Stopped, false, 0, 0;
      claimCancelled, procCancelled, done, closed, stopErr := false, false, false, false, false;
      stage, workers := NotCalled, [];
      trace := Trace([INITIAL], []);
    }

    // What every trace theorem says of the present view.
    lemma Present()
      requires Valid()
      ensures Inv(Now()) && Told(Now(), trace.steps)
      ensures status.Running? <==> HasStarted(trace.steps) && StopAccepted !in trace.steps
      ensures wg == 0 <==> AllExited(Now())
    {
      hide Inv, Told, HasStarted;
      var k := |trace.steps|;
      assert trace.steps[..k] == trace.steps;
      InvAlong(trace, k);
      ToldAlong(trace, k);
      RunningIff(trace, k);
      AllRemaining(workers);
    }

    // Appends a section that the fields already show.
    ghost method Note(s: Step)
      requires Lawful(trace) && Can(trace.Last(), s) && Now() == After(trace.Last(), s)
      modifies `trace
      ensures Lawful(trace) && trace.Last() == Now() && Extends(old(trace), trace, s)
    {
      hide Can, After, Lawful;
      ExtendLawful(trace, s, Now());
      trace := Trace(trace.views + [Now()], trace.steps + [s]);
    }

    /** A second Start is refused, and so is one after Stop. */
    method Start() returns (err: StartError)
      requires Valid()
      modifies this
      ensures Valid() && Extends(old(trace), trace, if err.StartOk? then Started(workerCount) else StartRefused)
      ensures err.StartOk? <==> !HasStarted(old(trace).steps)
      ensures err.StartOk? ==> forall i :: 0 <= i < workerCount ==> At(Now(), i, Looping)
      ensures err.ManagerClosed? ==> MarkedStopped in old(trace).steps
      ensures err.AlreadyRunning? ==> MarkedStopped !in old(trace).steps
    {
      hide Lawful, Extends, HasStarted, Busy, AllExited;
      Present();
      if status != Stopped {
        Note(StartRefused);
        return AlreadyRunning;
      }
      if used {
        Note(StartRefused);
        return ManagerClosed;
      }
      used := true;
      claimCancelled, procCancelled := false, false;
      status := Running;
      wg := workerCount;
      workers := seq(workerCount, _ => Looping);
      AllRemaining(workers);
      Note(Started(workerCount));
      err := StartOk;
    }

    /** The first critical section of Stop: the first Stop after the accepted Start is the one accepted. */
    method StopBegin() returns (accepted: bool)
      requires Valid()
      modifies `status, `stage, `trace
      ensures Valid() && Extends(old(trace), trace, if accepted then StopAccepted else StopRefused)
      ensures accepted <==> HasStarted(old(trace).steps) && StopAccepted !in old(trace).steps
    {
      hide Lawful, Extends, HasStarted, Remaining;
      Present();
      if status != Running {
        Note(StopRefused);
        return false;
      }
      status, stage := Stopping, Begun;
      Note(StopAccepted);
      accepted := true;
    }

    method CancelClaims()
      requires Valid() && stage.Begun?
      modifies `claimCancelled, `stage, `stopErr, `trace
      ensures Valid() && Extends(old(trace), trace, ClaimsCancelled)
    {
      hide Lawful, Extends, Remaining;
      claimCancelled, stopErr, stage := true, false, Draining;
      Note(ClaimsCancelled);
    }

    /** The goroutine Stop spawns after cancelling claims: wg.Wait returns once the counter is zero, which is once
        every worker has exited. */
    method WaitForWorkers()
      requires Valid() && claimCancelled && wg == 0 && !done
      modifies `done, `trace
      ensures Valid() && Extends(old(trace), trace, WaitGroupDone) && AllExited(Now()) && inflight == 0
    {
      hide Lawful, Extends, Remaining;
      Present();
      NoneBusy(workers);
      done := true;
      Note(WaitGroupDone);
    }

    // The two selects of Stop: fired says which channel was ready.
    method AwaitDrain(fired: bool)
      requires Valid() && stage.Draining? && (!fired ==> done)
      modifies `stage, `stopErr, `trace
      ensures Valid() && Extends(old(trace), trace, if fired then DrainTimedOut else Drained)
    {
      hide Lawful, Extends, Remaining;
      if fired {
        stopErr, stage := true, TimedOut;
        Note(DrainTimedOut);
      } else {
        stopErr, stage := false, Finishing(false);
        Note(Drained);
      }
    }

    method CancelProcessors()
      requires Valid() && (stage.TimedOut? || stage.Finishing?)
      modifies `procCancelled, `stage, `trace
      ensures Valid() && Extends(old(trace), trace, if old(stage).TimedOut? then ProcessorsCancelled else AllCancelled)
      ensures procCancelled
      ensures !AllExited(Now()) ==> DrainTimedOut in old(trace).steps
    {
      hide Lawful, Extends, Remaining;
      Present();
      procCancelled := true;
      if stage.TimedOut? {
        stage := Grace;
        Note(ProcessorsCancelled);
      } else {
        stage := Cancelled(stage.timedOut);
        Note(AllCancelled);
      }
    }

    method AwaitGrace(fired: bool)
      requires Valid() && stage.Grace? && (!fired ==> done)
      modifies `stage, `stopErr, `trace
      ensures Valid() && Extends(old(trace), trace, if fired then GraceOver else Drained)
    {
      hide Lawful, Extends, Remaining;
      stopErr, stage := true, Finishing(true);
      Note(if fired then GraceOver else Drained);
    }

    // The last critical section of Stop.
    method MarkStopped()
      requires Valid() && stage.Cancelled?
      modifies `status, `stage, `trace
      ensures Valid() && Extends(old(trace), trace, MarkedStopped)
    {
      hide Lawful, Extends, Remaining;
      status, stage := Stopped, Closing(stage.timedOut);
      Note(MarkedStopped);
    }

    /** The end of Stop. It returns nil exactly if the drain had not timed out and closing the engine succeeded;
        the engine is closed exactly if the workers are known to be gone, and nil implies that they are. */
    method StopEnd(closeFails: bool) returns (failed: bool)
      requires Valid() && stage.Closing?
      modifies `closed, `stage, `stopErr, `trace
      ensures Valid() && stage == Returned(failed) && procCancelled
      ensures Extends(old(trace), trace, if done then Closes(closeFails) else SkipsClose)
      ensures closed <==> WaitGroupDone in old(trace).steps
      ensures failed <==> DrainTimedOut in old(trace).steps || (done && closeFails)
      ensures closed || !failed ==> AllExited(Now()) && inflight == 0
    {
      hide Lawful, Extends, Remaining;
      Present();
      if done {
        NoneBusy(workers);
        closed := true;
        if closeFails {
          stopErr := true;
        }
      }
      failed := stopErr;
      stage := Returned(failed);
      Note(if done then Closes(closeFails) else SkipsClose);
    }

    /** One test of the worker loop: the worker goes on exactly if no Stop has cancelled the claims yet, and one
        that exits leaves the wait group. */
    method TestLoop(i: nat) returns (goesOn: bool)
      requires Valid() && At(Now(), i, Looping)
      modifies `workers, `wg, `trace
      ensures Valid() && Extends(old(trace), trace, Tests(i))
      ensures goesOn <==> ClaimsCancelled !in old(trace).steps
      ensures At(Now(), i, if goesOn then Claiming else Exited)
    {
      hide Lawful, Extends, Remaining;
      Present();
      goesOn := !claimCancelled;
      var w := if goesOn then Claiming else Exited;
      RemainingMove(workers, i, w);
      workers := workers[i := w];
      if !goesOn {
        wg := wg - 1;
      }
      Note(Tests(i));
    }

    /** What follows the Receive of workOnce. A task is taken on whatever has happened meanwhile, but one taken on
        after claims were cancelled is the worker's only one since then. An error is passed over in silence only
        while stopping. */
    method AfterReceive(i: nat, answer: Answer)
      requires Valid() && At(Now(), i, Claiming)
      modifies `workers, `inflight, `trace
      ensures Valid() && Extends(old(trace), trace, Claims(i, ResultOf(answer, ClaimsCancelled in old(trace).steps)))
      ensures workers == old(workers)[i := match answer
                                           case Task => Handling
                                           case Empty => Sleeping
                                           case Failure =>
                                             if ClaimsCancelled in old(trace).steps then Looping else Sleeping]
      ensures inflight == Open(trace.steps) == Busy(workers)
      ensures answer.Task? ==> TakenOnce(old(trace), i)
    {
      hide Lawful, Extends, Remaining;
      Present();
      match answer {
        case Task =>
          inflight := inflight + 1;
          MoveTo(i, Handling);
        case Empty =>
          MoveTo(i, Sleeping);
        case Failure =>
          MoveTo(i, if claimCancelled then Looping else Sleeping);
      }
      Note(Claims(i, ResultOf(answer, claimCancelled)));
      Present();
      if answer.Task? {
        OneMoreHere(old(trace), trace, i);
      }
    }

    ghost method MoveTo(i: nat, w: Worker)
      requires i < |workers| && !workers[i].Exited? && !w.Exited?
      modifies `workers
      ensures workers == old(workers)[i := w] && Remaining(workers) == Remaining(old(workers))
    {
      RemainingMove(workers, i, w);
      workers := workers[i := w];
    }

    method EndHandle(i: nat, panicked: bool)
      requires Valid() && At(Now(), i, Handling)
      modifies `workers, `inflight, `trace
      ensures Valid() && Extends(old(trace), trace, Finishes(i, panicked))
      ensures workers == old(workers)[i := if panicked then Sleeping else Looping]
      ensures inflight == Open(trace.steps) == Busy(workers)
    {
      hide Lawful, Extends, Remaining;
      inflight := inflight - 1;
      MoveTo(i, if panicked then Sleeping else Looping);
      Note(Finishes(i, panicked));
      Present();
    }

    // A sleep ends with its timer or with the cancellation of claims.
    method WakeUp(i: nat)
      requires Valid() && At(Now(), i, Sleeping)
      modifies `workers, `trace
      ensures Valid() && Extends(old(trace), trace, Wakes(i)) && workers == old(workers)[i := Looping]
    {
      hide Lawful, Extends, Remaining;
      MoveTo(i, Looping);
      Note(Wakes(i));
    }

    /** The guard of add: data is admitted exactly from the accepted Start until the accepted Stop. */
    method AdmitAdd() returns (admitted: bool)
      requires Valid()
      modifies `trace
      ensures Valid() && Extends(old(trace), trace, if admitted then AddAdmitted else AddRefused)
      ensures admitted <==> HasStarted(old(trace).steps) && StopAccepted !in old(trace).steps
    {
      hide Lawful, Extends, Remaining, HasStarted;
      Present();
      admitted := status == Running;
      Note(if admitted then AddAdmitted else AddRefused);
    }
  }
}
