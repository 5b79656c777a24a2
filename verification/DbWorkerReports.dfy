/**
 Which failure a call reports: WorkerPanicked only once the worker has panicked or was found
 poisoned, ShuttingDown only while it has not.
 */
module DbWorkerReports {
  import opened Wrappers
  import opened DbWorker
  import opened DbWorkerInvariant
  import opened DbWorkerSteps
  import opened DbWorkerTheorems

  predicate Tells(s: State, c: CallId, f: Failure) { Phase(s, c, Returned(Failed(f))) }

  ghost predicate ReportsOk(s: State) {
    && (forall c <- s.calls | Tells(s, c, WorkerPanicked) :: s.core.lifecycle == Panicked)
    && (forall c <- s.calls | s.calls[c] == Refused :: s.core.closed)
    && (s.calls != map[] ==> s.core.lifecycle != Starting)
  }

  /** A job that was failed by the worker's side means that the worker has panicked. */
  lemma FailedJobMeansPanicked(s: State, c: CallId)
    requires Inv(s) && c in s.jobs && Failed(WorkerPanicked) in s.jobs[c].replies
    ensures s.core.lifecycle == Panicked
  {
    hide Calls, Permits, Positions;
    assert JobOk(s.jobs[c], s.core.ledger, CoreGrip(s.core));
  }

  // What a step does to the parts that reports depend on.
  lemma ReportFrame(s: State, st: Step)
    requires Phases(s.core) && Enabled(s, st)
    ensures s.core.lifecycle == Panicked ==> Apply(s, st).core.lifecycle == Panicked
    ensures s.core.lifecycle != Starting ==> Apply(s, st).core.lifecycle != Starting
    ensures s.core.closed ==> Apply(s, st).core.closed
  {
    if CallerStep(st) { ReportFrameCaller(s, st); } else { ReportFrameWorker(s, st); }
    hide Apply, Enabled, Phases;
  }

  lemma ReportFrameCaller(s: State, st: Step)
    requires Phases(s.core) && Enabled(s, st) && CallerStep(st)
    ensures s.core.lifecycle == Panicked ==> Apply(s, st).core.lifecycle == Panicked
    ensures s.core.lifecycle != Starting ==> Apply(s, st).core.lifecycle != Starting
    ensures s.core.closed ==> Apply(s, st).core.closed
  {}

  lemma ReportFrameWorker(s: State, st: Step)
    requires Phases(s.core) && Enabled(s, st) && !CallerStep(st)
    ensures s.core.lifecycle == Panicked ==> Apply(s, st).core.lifecycle == Panicked
    ensures s.core.lifecycle != Starting ==> Apply(s, st).core.lifecycle != Starting
    ensures s.core.closed ==> Apply(s, st).core.closed
  {}

  // The call whose phase a step changes.
  function Mover(st: Step): Option<CallId> {
    match st
    case Call(c) => Some(c)
    case Acquire(c) => Some(c)
    case AcquireClosed(c) => Some(c)
    case Observe(c) => Some(c)
    case Admit(c) => Some(c)
    case Respond(c) => Some(c)
    case Abandon(c) => Some(c)
    case PanicAdmitting(c, _) => Some(c)
    case FinishBatch(Caller(c)) => Some(c)
    case _ => None
  }

  lemma OthersStay(s: State, st: Step)
    requires Enabled(s, st)
    ensures Mover(st).None? ==> Apply(s, st).calls == s.calls
    ensures var m, t := Mover(st), Apply(s, st);
            m.Some? ==> (m.value in t.calls && t.calls == s.calls[m.value := t.calls[m.value]])
  {}

  // Which failure the moving call is told, by the lifecycle.
  lemma MoverIsToldTheTruth(s: State, st: Step)
    requires Inv(s) && ReportsOk(s) && Enabled(s, st) && Mover(st).Some?
    ensures var c, t := Mover(st).value, Apply(s, st);
            && (Tells(t, c, WorkerPanicked) ==> t.core.lifecycle == Panicked)
            && (Tells(t, c, ShuttingDown) ==> t.core.lifecycle == Closing || t.core.lifecycle == Closed)
            && (t.calls[c] == Refused ==> t.core.closed)
            && t.core.lifecycle != Starting
  {
    var c := Mover(st).value;
    if st.Respond? {
      RespondIsTrue(s, c);
    } else if st.FinishBatch? {
      assert Order(s.core) && s.core.lifecycle == Panicked;
      hide Inv, Order;
    } else {
      assert Phases(s.core);
      hide Inv;
    }
  }

  lemma RespondIsTrue(s: State, c: CallId)
    requires Inv(s) && ReportsOk(s) && Enabled(s, Respond(c))
    ensures var a := s.jobs[c].replies[0];
            && (a == Failed(WorkerPanicked) ==> s.core.lifecycle == Panicked)
            && a != Failed(ShuttingDown) && s.core.lifecycle != Starting
  {
    if Failed(WorkerPanicked) in s.jobs[c].replies { FailedJobMeansPanicked(s, c); }
    hide CoreInv, Calls, Permits, Positions;
    assert JobOk(s.jobs[c], s.core.ledger, CoreGrip(s.core));
  }

  lemma PhasesHold(s: State)
    requires Inv(s)
    ensures Phases(s.core)
  {}

  lemma StepKeepsReports(s: State, st: Step)
    requires Inv(s) && ReportsOk(s) && Enabled(s, st)
    ensures ReportsOk(Apply(s, st))
  {
    hide Inv, Apply, Enabled, Phases;
    PhasesHold(s);
    ReportFrame(s, st);
    OthersStay(s, st);
    if Mover(st).Some? { MoverIsToldTheTruth(s, st); }
  }

  lemma {:induction false} RunKeepsReports(s: State, steps: seq<Step>)
    requires Inv(s) && ReportsOk(s) && Run(s, steps).Some?
    ensures ReportsOk(Run(s, steps).value)
    decreases |steps|
  {
    hide Inv, ReportsOk, Enabled, Apply;
    if steps != [] {
      StepKeepsReports(s, steps[0]);
      StepKeepsInv(s, steps[0]);
      RunKeepsReports(Apply(s, steps[0]), steps[1..]);
    }
  }

  lemma ReachesReports(capacity: nat, steps: seq<Step>, s: State)
    requires Reaches(capacity, steps, s)
    ensures Inv(s) && ReportsOk(s)
  {
    hide Run, Inv;
    InitInv(capacity, Init(capacity));
    ReachesInv(capacity, steps, s);
    RunKeepsReports(Init(capacity), steps);
  }

  /** In every run, a call was told WorkerPanicked only if the worker is Panicked. */
  lemma PanicReportsAreTrue(capacity: nat, steps: seq<Step>, s: State, c: CallId)
    requires Reaches(capacity, steps, s) && Tells(s, c, WorkerPanicked)
    ensures s.core.lifecycle == Panicked
  {
    hide Run, Inv;
    ReachesReports(capacity, steps, s);
  }

  /** In every run, a call is told ShuttingDown only by a step that leaves the worker closing or
      closed, so never once it has panicked. */
  lemma ShutdownReportsAreTrue(capacity: nat, steps: seq<Step>, s: State, st: Step, c: CallId)
    requires Reaches(capacity, steps, s) && Enabled(s, st)
    requires !Tells(s, c, ShuttingDown) && Tells(Apply(s, st), c, ShuttingDown)
    ensures Apply(s, st).core.lifecycle == Closing || Apply(s, st).core.lifecycle == Closed
  {
    ReachesReports(capacity, steps, s);
    OthersStay(s, st);
    hide Run, Inv, Apply, Enabled, ReportsOk;
    if Mover(st) == Some(c) { MoverIsToldTheTruth(s, st); }
  }

  // Nothing has panicked and the lock is sound.
  predicate Calm(s: Core) { !s.poisoned && s.lifecycle != Panicked && !s.worker.Unwinding? }

  // A calm worker has its job's operation in hand, and nobody is failing anything.
  predicate NothingFails(s: State) {
    && !s.core.worker.FailCurrent? && !s.core.worker.FailQueued? && s.core.batches == map[]
    && (s.core.worker.Dequeued? && s.core.worker.job in s.jobs ==> s.jobs[s.core.worker.job].operation)
  }

  lemma CalmFailsNothing(s: State)
    requires Inv(s) && Calm(s.core)
    ensures NothingFails(s)
  {
    if s.core.worker.Dequeued? && s.core.worker.job in s.jobs { InvokeDrains(s); }
    assert Order(s.core) && Phases(s.core);
    hide Inv;
  }

  lemma QuietStaysCalm(s: State, st: Step)
    requires NothingFails(s) && Calm(s.core) && Enabled(s, st) && Quiet(st)
    ensures Calm(Apply(s, st).core)
  {}

  lemma {:induction false} QuietRunStaysCalm(s: State, steps: seq<Step>)
    requires Inv(s) && Calm(s.core) && Run(s, steps).Some? && forall st <- steps :: Quiet(st)
    ensures Calm(Run(s, steps).value.core)
    decreases |steps|
  {
    hide Inv, Calm, Enabled, Apply, Quiet, NothingFails;
    if steps != [] {
      CalmFailsNothing(s);
      QuietStaysCalm(s, steps[0]);
      StepKeepsInv(s, steps[0]);
      QuietRunStaysCalm(Apply(s, steps[0]), steps[1..]);
    }
  }

  /** While nothing panics, no call is ever told that the worker panicked. */
  lemma NoPanicNoReport(capacity: nat, steps: seq<Step>, s: State, c: CallId)
    requires Reaches(capacity, steps, s) && forall st <- steps :: Quiet(st)
    ensures !Tells(s, c, WorkerPanicked)
  {
    hide Run, Inv, Quiet;
    InitInv(capacity, Init(capacity));
    QuietRunStaysCalm(Init(capacity), steps);
    ReachesReports(capacity, steps, s);
  }
}
