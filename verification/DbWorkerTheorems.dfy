/** What the worker guarantees at the end of every run, whatever the interleaving. */
module DbWorkerTheorems {
  import opened Wrappers
  import opened DbWorker
  import opened DbWorkerInvariant
  import opened DbWorkerSteps

  ghost predicate Reaches(capacity: nat, steps: seq<Step>, s: State) {
    Run(Init(capacity), steps) == Some(s)
  }

  lemma ReachesInv(capacity: nat, steps: seq<Step>, s: State)
    requires Reaches(capacity, steps, s)
    ensures Inv(s)
  {
    InitInv(capacity, Init(capacity));
    RunKeepsInv(Init(capacity), steps);
  }

  ghost predicate Answered(s: State, c: CallId) {
    c in s.jobs && s.jobs[c].replies != []
  }

  // ---- Take-once envelopes and admission order ----

  /** A job is invoked at most once and answered at most once, and never told ShuttingDown. */
  lemma AtMostOnce(capacity: nat, steps: seq<Step>, s: State, c: CallId)
    requires Reaches(capacity, steps, s) && c in s.jobs
    ensures s.jobs[c].runs <= 1
    ensures s.jobs[c].replies == [] || s.jobs[c].replies == [Real]
         || s.jobs[c].replies == [Failed(WorkerPanicked)]
    ensures s.jobs[c].replies == [Real] ==> s.jobs[c].runs == 1
  {
    ReachesInv(capacity, steps, s);
    hide CoreInv, Positions;
    assert JobOk(s.jobs[c], s.core.ledger, CoreGrip(s.core));
  }

  /** Real results form a prefix of admission order, and a job is invoked only after
      every job admitted before it got its real result. */
  lemma RealResultsArePrefix(capacity: nat, steps: seq<Step>, s: State, i: nat, k: nat)
    requires Reaches(capacity, steps, s) && i < k < |s.core.ledger.admitted|
    ensures var a := s.core.ledger.admitted;
            && a[i] in s.jobs && a[k] in s.jobs && a[i] != a[k]
            && (s.jobs[a[k]].runs > 0 ==> s.jobs[a[i]].replies == [Real])
  {
    ReachesInv(capacity, steps, s);
    hide CoreInv;
    var a := s.core.ledger.admitted;
    assert s.jobs[a[i]].position == i && s.jobs[a[k]].position == k;
    assert JobOk(s.jobs[a[i]], s.core.ledger, CoreGrip(s.core));
    assert JobOk(s.jobs[a[k]], s.core.ledger, CoreGrip(s.core));
    LostAtMostOne(s.core);
  }

  lemma LostAtMostOne(s: Core)
    requires CoreInv(s)
    ensures s.ledger.lost + InHand(CoreGrip(s)) <= 1
  {}

  // ---- The end of the worker ----

  ghost predicate AllAnswered(s: State) {
    forall c <- s.jobs :: Answered(s, c)
  }

  /** When the worker thread has ended, every accepted job has been answered if and only
      if no thread that found the lock poisoned is still failing the queue it took. */
  lemma EndedMeansAnswered(capacity: nat, steps: seq<Step>, s: State)
    requires Reaches(capacity, steps, s) && s.core.worker.Finished?
    ensures AllAnswered(s) <==> forall a <- s.core.batches :: s.core.batches[a] == []
  {
    ReachesInv(capacity, steps, s);
    EndedCore(s.core);
    hide CoreInv;
    var l := s.core.ledger;
    if forall a <- s.core.batches :: s.core.batches[a] == [] {
      forall c <- s.jobs ensures Answered(s, c) {
        assert JobOk(s.jobs[c], l, CoreGrip(s.core));
      }
    } else {
      var c := l.admitted[Settled(s.core)];
      assert JobOk(s.jobs[c], l, CoreGrip(s.core));
      assert !Answered(s, c);
    }
  }

  lemma EndedCore(s: Core)
    requires CoreInv(s) && s.worker.Finished?
    ensures CoreGrip(s) == Nothing
    ensures Settled(s) == |s.ledger.admitted| <==> forall a <- s.batches :: s.batches[a] == []
  {
    if Settled(s) < |s.ledger.admitted| {
      assert s.lifecycle == Panicked;
      assert s.batches[s.owner.value] != [];
    }
  }

  // Call 0 was admitted and nobody else did anything.
  lemma AdmittedRun() returns (steps: seq<Step>, s: State)
    ensures Reaches(2, steps, s)
    ensures Published(s) && s.free == 1 && s.core.queue == [0] && s.core.worker == Top && !s.core.closed
    ensures 1 !in s.calls && 0 in s.jobs && s.jobs[0] == FreshJob(0)
    ensures forall a :: a !in s.core.batches
  {
    hide Run;
    steps := [Start, Call(0), Acquire(0), Admit(0)];
    var s1 := Apply(Init(2), Start);
    var s2 := Apply(s1, Call(0));
    var s3 := Apply(s2, Acquire(0));
    s := Apply(s3, Admit(0));
    FourSteps(Init(2), Start, Call(0), Acquire(0), Admit(0), s1, s2, s3, s);
  }

  lemma FourSteps(s: State, a: Step, b: Step, c: Step, d: Step, s1: State, s2: State, s3: State, t: State)
    requires Enabled(s, a) && Apply(s, a) == s1 && Enabled(s1, b) && Apply(s1, b) == s2
    requires Enabled(s2, c) && Apply(s2, c) == s3 && Enabled(s3, d) && Apply(s3, d) == t
    ensures Run(s, [a, b, c, d]) == Some(t)
  {
    hide Enabled, Apply;
    assert [a, b, c, d][1..] == [b, c, d] && [b, c, d][1..] == [c, d] && [c, d][1..] == [d];
    assert Run(s3, [d]) == Some(t);
    assert Run(s2, [c, d]) == Some(t);
    assert Run(s1, [b, c, d]) == Some(t);
  }

  // Then call 1 found the lock poisoned and took job 0 out of the queue.
  lemma TakenRun(s: State) returns (steps: seq<Step>, t: State)
    requires Published(s) && s.free == 1 && s.core.queue == [0] && s.core.worker == Top && !s.core.closed
    requires 1 !in s.calls && 0 in s.jobs && s.jobs[0] == FreshJob(0)
    requires forall a :: a !in s.core.batches
    ensures Run(s, steps) == Some(t)
    ensures t.core.poisoned && t.core.worker == Top && t.core.queue == []
    ensures 0 in t.jobs && t.jobs[0] == FreshJob(0)
  {
    hide Run;
    steps := [Call(1), Acquire(1), Poison, Admit(1)];
    var s1 := Apply(s, Call(1));
    var s2 := Apply(s1, Acquire(1));
    var s3 := Apply(s2, Poison);
    t := Apply(s3, Admit(1));
    FourSteps(s, Call(1), Acquire(1), Poison, Admit(1), s1, s2, s3, t);
  }

  // Then the worker found the poison too and ended.
  lemma EndedRun(s: State) returns (steps: seq<Step>, t: State)
    requires s.core.poisoned && s.core.worker == Top && s.core.queue == []
    ensures Run(s, steps) == Some(t)
    ensures t.core.worker == Finished(Panicked) && t.jobs == s.jobs
  {
    steps := [Inspect, FinishBatch(WorkerThread)];
    t := Apply(Apply(s, Inspect), FinishBatch(WorkerThread));
    assert steps[1..] == [FinishBatch(WorkerThread)];
    assert Run(Apply(s, Inspect), [FinishBatch(WorkerThread)]) == Some(t);
  }

  /** The worker can end while an accepted job is unanswered: call 1 found the lock
      poisoned, took job 0 out of the queue and has not failed it yet. */
  lemma EndedUnanswered()
    ensures exists steps, s :: Reaches(2, steps, s)
              && s.core.worker == Finished(Panicked) && 0 in s.jobs && !Answered(s, 0)
  {
    hide Enabled, Apply;
    var first, admitted := AdmittedRun();
    var second, taken := TakenRun(admitted);
    var third, s := EndedRun(taken);
    Unrolls(Init(2), first, second + third, admitted);
    Unrolls(admitted, second, third, taken);
    assert Reaches(2, first + (second + third), s);
  }

  lemma {:induction false} Unrolls(s: State, first: seq<Step>, rest: seq<Step>, t: State)
    requires Run(s, first) == Some(t)
    ensures Run(s, first + rest) == Run(t, rest)
    decreases |first|
  {
    hide Enabled, Apply;
    if first == [] {
      assert first + rest == rest;
    } else {
      assert (first + rest)[1..] == first[1..] + rest;
      Unrolls(Apply(s, first[0]), first[1..], rest, t);
    }
  }

  /** That thread alone finishes the job: its own steps answer everything that is left. */
  lemma {:induction false} BatchDrains(s: State, a: Actor) returns (steps: seq<Step>)
    requires Inv(s) && s.core.worker.Finished?
    requires s.core.owner == Some(a) && a in s.core.batches && a != WorkerThread
    ensures forall st <- steps :: st == FailNext(a)
    ensures |steps| == |s.core.batches[a]|
    ensures Run(s, steps).Some? && AllAnswered(Run(s, steps).value)
    decreases |s.core.batches[a]|
  {
    if s.core.batches[a] == [] {
      steps := [];
      DrainedMeansAnswered(s, a);
    } else {
      FailNextEnabled(s, a);
      FailNextKeeps(s, a);
      hide Inv, AllAnswered, Enabled, Apply, FailNextJob;
      var rest := BatchDrains(FailNextJob(s, a), a);
      steps := [FailNext(a)] + rest;
      assert steps[1..] == rest;
    }
  }

  lemma FailNextEnabled(s: State, a: Actor)
    requires Inv(s) && a in s.core.batches && a != WorkerThread && s.core.batches[a] != []
    ensures Enabled(s, FailNext(a))
    ensures var t := Apply(s, FailNext(a));
            && t == FailNextJob(s, a)
            && t.core.worker == s.core.worker && t.core.owner == s.core.owner
            && a in t.core.batches && t.core.batches[a] == s.core.batches[a][1..]
  {
    hide Held, Phases, Calls, Permits;
    FailNextKeepsCore(s.core, a);
  }

  lemma DrainedMeansAnswered(s: State, a: Actor)
    requires Inv(s) && s.core.worker.Finished? && s.core.owner == Some(a)
    requires a in s.core.batches && s.core.batches[a] == []
    ensures AllAnswered(s)
  {
    EndedCore(s.core);
    forall c <- s.jobs ensures Answered(s, c) {
      assert JobOk(s.jobs[c], s.core.ledger, CoreGrip(s.core));
    }
  }

  /** A Closed lifecycle, or a worker that ended Closed, executed every accepted job. */
  lemma ClosedMeansExecuted(capacity: nat, steps: seq<Step>, s: State)
    requires Reaches(capacity, steps, s)
    requires s.core.lifecycle == Closed || s.core.worker == Finished(Closed)
    ensures forall c <- s.jobs :: s.jobs[c].runs == 1 && s.jobs[c].replies == [Real]
  {
    ReachesInv(capacity, steps, s);
    forall c <- s.jobs ensures s.jobs[c].runs == 1 && s.jobs[c].replies == [Real] {
      assert JobOk(s.jobs[c], s.core.ledger, CoreGrip(s.core));
    }
  }

  // ---- Admission ----

  /** A step admits nothing, or one new job while the lifecycle is Running and the lock is sound. */
  lemma AdmissionStep(s: State, st: Step)
    requires Enabled(s, st)
    ensures var a := s.core.ledger.admitted;
            var b := Apply(s, st).core.ledger.admitted;
            || b == a
            || ((st.Admit? || st.PanicAdmitting?) && b == a + [st.c]
                && s.core.lifecycle == Running && !s.core.poisoned && Phase(s, st.c, Holding))
  {
    if !CallerStep(st) {
      WorkerAdmitsNothing(s, st);
      hide Apply;
    }
  }

  predicate CallerStep(st: Step) {
    st.Call? || st.Acquire? || st.AcquireClosed? || st.Observe? || st.Admit? || st.Respond? || st.Abandon?
    || st.Shutdown? || st.Poison? || st.PanicAdmitting? || st.PanicClosing?
  }

  lemma WorkerAdmitsNothing(s: State, st: Step)
    requires Enabled(s, st) && !CallerStep(st)
    ensures Apply(s, st).core.ledger.admitted == s.core.ledger.admitted
  {}

  predicate Past(l: Lifecycle) { l != Starting && l != Running }

  lemma PastStep(s: State, st: Step)
    requires Inv(s) && Enabled(s, st) && Past(s.core.lifecycle)
    ensures Past(Apply(s, st).core.lifecycle)
    ensures s.core.lifecycle == Panicked ==> Apply(s, st).core.lifecycle == Panicked
    ensures Apply(s, st).core.ledger.admitted == s.core.ledger.admitted
  {
    hide Apply, Enabled, Order, Held, Jobs, Calls, Permits;
    AdmissionStep(s, st);
    if CallerStep(st) { PastCallerStep(s, st); } else { PastWorkerStep(s, st); }
  }

  lemma PastWorkerStep(s: State, st: Step)
    requires Phases(s.core) && Enabled(s, st) && !CallerStep(st) && Past(s.core.lifecycle)
    ensures Past(Apply(s, st).core.lifecycle)
    ensures s.core.lifecycle == Panicked ==> Apply(s, st).core.lifecycle == Panicked
  {}

  lemma PastCallerStep(s: State, st: Step)
    requires Enabled(s, st) && CallerStep(st) && Past(s.core.lifecycle)
    ensures Past(Apply(s, st).core.lifecycle)
    ensures s.core.lifecycle == Panicked ==> Apply(s, st).core.lifecycle == Panicked
  {}

  /** Once the lifecycle has left Running nothing is ever admitted again, and Panicked is final. */
  lemma {:induction false} NothingAfterRunning(s: State, steps: seq<Step>)
    requires Inv(s) && Past(s.core.lifecycle) && Run(s, steps).Some?
    ensures Run(s, steps).value.core.ledger.admitted == s.core.ledger.admitted
    ensures s.core.lifecycle == Panicked ==> Run(s, steps).value.core.lifecycle == Panicked
    decreases |steps|
  {
    hide Inv, Enabled, Apply;
    if steps != [] {
      PastStep(s, steps[0]);
      StepKeepsInv(s, steps[0]);
      NothingAfterRunning(Apply(s, steps[0]), steps[1..]);
    }
  }

  /** What a finished call was told agrees with what happened to its job. */
  lemma CallerIsToldTheTruth(capacity: nat, steps: seq<Step>, s: State, c: CallId, a: Answer)
    requires Reaches(capacity, steps, s) && Phase(s, c, Returned(a))
    ensures a == Real ==> c in s.jobs && s.jobs[c].runs == 1 && s.jobs[c].replies == [Real]
    ensures a == Failed(ShuttingDown) ==> c !in s.jobs
    ensures a == Failed(WorkerPanicked) && c in s.jobs ==> s.jobs[c].replies == [Failed(WorkerPanicked)]
  {
    ReachesInv(capacity, steps, s);
    hide CoreInv, Positions;
    assert CallOk(s.calls[c], c, s.jobs);
    assert c in s.jobs ==> JobOk(s.jobs[c], s.core.ledger, CoreGrip(s.core));
  }

  // ---- The semaphore ----

  lemma {:induction false} DistinctFit(q: seq<CallId>, all: set<CallId>)
    requires forall i, k | 0 <= i < k < |q| :: q[i] != q[k]
    requires forall i | 0 <= i < |q| :: q[i] in all
    ensures |q| <= |all|
  {
    if q != [] {
      DistinctFit(q[1..], all - {q[0]});
    }
  }

  ghost predicate Outstanding(w: WorkerPhase) { w.Dequeued? || w.Invoked? || w.Replied? }

  /** Permits are conserved, so accepted outstanding work never exceeds the capacity. */
  lemma PermitsConserved(capacity: nat, steps: seq<Step>, s: State)
    requires Reaches(capacity, steps, s)
    ensures s.free + |Holders(s.calls)| + |PermitJobs(s.jobs)| == capacity
    ensures |s.core.queue| + One(Outstanding(s.core.worker)) <= capacity
  {
    ReachesInv(capacity, steps, s);
    RunKeepsCapacity(Init(capacity), steps);
    var w := s.core.worker;
    var q := (if Outstanding(w) then [w.job] else []) + s.core.queue;
    WorkHoldsPermits(s, q);
    DistinctFit(q, PermitJobs(s.jobs));
  }

  lemma WorkHoldsPermits(s: State, q: seq<CallId>)
    requires Inv(s)
    requires q == (if Outstanding(s.core.worker) then [s.core.worker.job] else []) + s.core.queue
    ensures forall i, k | 0 <= i < k < |q| :: q[i] != q[k]
    ensures forall i | 0 <= i < |q| :: q[i] in PermitJobs(s.jobs)
  {
    hide Calls, Permits;
    var l := s.core.ledger;
    if s.core.lifecycle != Panicked || Outstanding(s.core.worker) {
      var base := l.served + l.lost - One(s.core.worker.Replied?);
      forall i | 0 <= i < |q|
        ensures base + i < |l.admitted| && q[i] == l.admitted[base + i] && q[i] in PermitJobs(s.jobs)
      {
        QueuedAt(s, q, base, i);
        assert JobOk(s.jobs[q[i]], l, CoreGrip(s.core));
      }
    }
  }

  lemma QueuedAt(s: State, q: seq<CallId>, base: nat, i: nat)
    requires CoreInv(s.core)
    requires q == (if Outstanding(s.core.worker) then [s.core.worker.job] else []) + s.core.queue
    requires s.core.lifecycle != Panicked || Outstanding(s.core.worker)
    requires base + One(s.core.worker.Replied?) == s.core.ledger.served + s.core.ledger.lost
    requires i < |q|
    ensures base + i < |s.core.ledger.admitted| && q[i] == s.core.ledger.admitted[base + i]
  {}

  lemma {:induction false} RunKeepsCapacity(s: State, steps: seq<Step>)
    requires Run(s, steps).Some?
    ensures Run(s, steps).value.capacity == s.capacity
    decreases |steps|
  {
    if steps != [] {
      RunKeepsCapacity(Apply(s, steps[0]), steps[1..]);
    }
  }

  // ---- Drain ----

  // Steps that are neither a panic nor the poisoning of the lock.
  predicate Quiet(st: Step) {
    !(st.OperationPanics? || st.WorkerPanics? || st.Poison? || st.PanicAdmitting? || st.PanicClosing?)
  }

  predicate WorkerStep(st: Step) { st.Inspect? || st.Invoke? || st.Return? || st.Release? }

  // A worker that is draining after begin_shutdown.
  predicate Draining(s: Core) {
    && !s.poisoned
    && (if s.worker.Finished? then s == s.(lifecycle := Closed, worker := Finished(Closed))
        else s.lifecycle == Closing
             && (s.worker.Top? || s.worker.Parked? || s.worker.Dequeued? || s.worker.Invoked?
                 || s.worker.Replied?))
  }

  function StepsLeft(s: Core): nat {
    4 * |s.queue| +
    (match s.worker
     case Dequeued(_) => 4
     case Invoked(_) => 3
     case Replied(_) => 2
     case Finished(_) => 0
     case _ => 1)
  }

  function CountSteps(steps: seq<Step>, p: Step -> bool): nat {
    if steps == [] then 0 else One(p(steps[0])) + CountSteps(steps[1..], p)
  }

  lemma ShutdownStartsDrain(s: State, n: nat)
    requires Inv(s) && Enabled(s, Shutdown(n)) && s.core.lifecycle == Running && !s.core.poisoned
    requires !s.core.worker.Unwinding?
    ensures Draining(Apply(s, Shutdown(n)).core)
  {
    hide Order, Held, Jobs, Calls, Permits;
  }

  lemma DrainStep(s: State, st: Step)
    requires Inv(s) && Draining(s.core) && Enabled(s, st) && Quiet(st)
    ensures Draining(Apply(s, st).core)
    ensures StepsLeft(Apply(s, st).core) + One(WorkerStep(st)) == StepsLeft(s.core)
    ensures Apply(s, st).core.ledger.served == s.core.ledger.served + One(st.Return?)
    ensures Apply(s, st).core.ledger.admitted == s.core.ledger.admitted
  {
    hide Jobs, Calls, Permits, Held;
    if st.Invoke? {
      InvokeDrains(s);
    }
  }

  lemma InvokeDrains(s: State)
    requires Inv(s) && Enabled(s, Invoke)
    ensures s.jobs[s.core.worker.job].operation
  {
    InvokeKeepsJobs(s.jobs, s.core.ledger, s.core.worker.job);
  }

  /** Until it has ended, the draining worker always has a step of its own to take, and does
      not depend on a spurious wake-up for it. */
  lemma DrainNeverStuck(s: State)
    requires Inv(s) && Draining(s.core) && !s.core.worker.Finished?
    ensures Enabled(s, Inspect) || Enabled(s, Invoke) || Enabled(s, Return) || Enabled(s, Release)
    ensures s.core.worker != Parked(false)
  {
    hide Order, Calls, Permits;
  }

  /** However other threads interleave, if nothing panics the worker takes exactly
      `StepsLeft` steps of its own, executes exactly the outstanding jobs and ends Closed. */
  lemma {:induction false} DrainReachesClosed(s: State, steps: seq<Step>)
    requires Inv(s) && Draining(s.core) && Run(s, steps).Some?
    requires forall st <- steps :: Quiet(st)
    ensures var t := Run(s, steps).value;
            && StepsLeft(t.core) + CountSteps(steps, WorkerStep) == StepsLeft(s.core)
            && t.core.ledger.served == s.core.ledger.served + CountSteps(steps, (st: Step) => st.Return?)
            && t.core.ledger.admitted == s.core.ledger.admitted
            && (StepsLeft(t.core) == 0 ==>
                  t.core.worker == Finished(Closed) && t.core.ledger.served == |t.core.ledger.admitted|)
    decreases |steps|
  {
    if steps == [] {
      assert StepsLeft(s.core) == 0 ==> s.core.worker == Finished(Closed);
    } else {
      DrainStep(s, steps[0]);
      StepKeepsInv(s, steps[0]);
      hide Inv, Enabled, Apply;
      DrainReachesClosed(Apply(s, steps[0]), steps[1..]);
    }
  }
}
