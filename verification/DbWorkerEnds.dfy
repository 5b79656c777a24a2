/**
 What a panic, a shutdown and the end of the worker lead to: a worker that panicked fails what it
 holds and ends, and once it has ended no call is left waiting.
 */
module DbWorkerEnds {
  import opened Wrappers
  import opened DbWorker
  import opened DbWorkerInvariant
  import opened DbWorkerSteps
  import opened DbWorkerTheorems

  // ---- Single steps ----

  /** A panic of the worker outside the lock leaves the lock as it was, one under the lock poisons it;
      either way the worker unwinds, with the job in hand if there is one, and a job that was not
      answered yet is lost. */
  lemma PanicUnwinds(s: State, st: Step)
    requires Enabled(s, st) && (st.WorkerPanics? || st.OperationPanics?)
    ensures var t, w := Apply(s, st).core, s.core.worker;
            && t.worker == Unwinding(if w.Dequeued? || w.Invoked? || w.Replied? then Some(w.job) else None)
            && t.poisoned == (s.core.poisoned || (st.WorkerPanics? && st.poison))
            && t.ledger.lost == s.core.ledger.lost + (if w.Dequeued? || w.Invoked? then 1 else 0)
            && t.lifecycle == s.core.lifecycle && t.queue == s.core.queue
    ensures Apply(s, st).jobs == s.jobs && Apply(s, st).calls == s.calls
  {}

  /** A caller or a shutdown thread that panics under the lock poisons it and wakes nobody.  What it had
      done by then stays: a pushed job is queued with its permit, and closed admission is closed. */
  lemma PanicsPoison(s: State, st: Step)
    requires Enabled(s, st) && (st.Poison? || st.PanicAdmitting? || st.PanicClosing?)
    ensures var t, was := Apply(s, st), s.core;
            && t.core.poisoned && t.core.worker == was.worker
            && (st.PanicAdmitting? ==> Phase(t, st.c, Abandoned))
            && t.core.queue == (if st.PanicAdmitting? && st.pushed then was.queue + [st.c] else was.queue)
            && t.free == (if st.PanicAdmitting? && !st.pushed then s.free + 1 else s.free)
            && t.core.closed == (was.closed || st.PanicClosing?)
            && t.core.lifecycle == (if st.PanicClosing? && was.lifecycle == Running then Closing else was.lifecycle)
  {}

  /** Shutdown closes admission for good and wakes the worker.  A running worker begins to close and
      keeps its queue; under a poisoned lock the worker is Panicked and its queue is taken away to be
      failed. */
  lemma ShutdownExactly(s: State, n: nat)
    requires Enabled(s, Shutdown(n))
    ensures var t, was := Apply(s, Shutdown(n)).core, s.core;
            && t.closed && t.lifecycle != Running && t.worker == Wake(was.worker)
            && (t.lifecycle == Closing <==> !was.poisoned && was.lifecycle in {Running, Closing})
            && (was.poisoned ==> t.lifecycle == Panicked && t.queue == [] && t.batches == was.batches[Closer(n) := was.queue])
            && (!was.poisoned ==> t.queue == was.queue && t.batches == was.batches)
            && (!was.poisoned && was.lifecycle != Running ==> t.lifecycle == was.lifecycle)
    ensures Apply(s, Shutdown(n)).jobs == s.jobs && Apply(s, Shutdown(n)).calls == s.calls
  {}

  /** A worker that starts is Running, and one whose initialization fails has no handle: nothing can happen
      to it any more. */
  lemma StartDecides(capacity: nat)
    ensures Enabled(Init(capacity), Start) && Enabled(Init(capacity), StartFails)
    ensures var t := Apply(Init(capacity), Start).core; t.lifecycle == Running && t.worker.Top? && !t.closed
    ensures forall st: Step :: !Enabled(Apply(Init(capacity), StartFails), st)
  {}

  // ---- Failing a batch ----

  // A thread that is failing the batch it took.
  predicate Failing(s: State, a: Actor) {
    a in s.core.batches && (a == WorkerThread ==> s.core.worker.FailQueued?)
  }

  lemma FirstIsAJob(s: State, a: Actor)
    requires Inv(s) && Failing(s, a) && s.core.batches[a] != []
    ensures Enabled(s, FailNext(a))
  {
    hide Held, Phases, Calls, Permits, JobOk;
    assert s.core.owner == Some(a);
    assert s.core.batches[a][0] == s.core.ledger.admitted[Settled(s.core)];
  }

  // What failing one job leaves as it was.
  lemma FailNextFrame(s: State, a: Actor)
    requires Enabled(s, FailNext(a))
    ensures var t := Apply(s, FailNext(a));
            && Failing(t, a) && t.core.batches == s.core.batches[a := s.core.batches[a][1..]] && t.calls == s.calls
            && t.core.worker == s.core.worker && t.core.lifecycle == s.core.lifecycle && t.core.poisoned == s.core.poisoned
  {}

  lemma FinishFrame(s: State, a: Actor)
    requires Inv(s) && Failing(s, a) && s.core.batches[a] == []
    ensures Enabled(s, FinishBatch(a))
    ensures var t := Apply(s, FinishBatch(a));
            && t.core.batches == s.core.batches - {a} && t.core.lifecycle == s.core.lifecycle
            && t.core.worker == (if a == WorkerThread then Finished(Panicked) else s.core.worker)
            && (a.Caller? ==> Phase(t, a.call, Returned(Failed(WorkerPanicked))))
  {
    hide Inv;
  }

  lemma RunFrom(s: State, st: Step, rest: seq<Step>)
    requires Enabled(s, st)
    ensures Run(s, [st] + rest) == Run(Apply(s, st), rest)
    ensures Run(s, [st]) == Some(Apply(s, st))
  {
    hide Enabled, Apply;
    assert ([st] + rest)[1..] == rest && [st][1..] == [];
  }

  // The steps of one thread while it fails its batch.
  predicate FailsBatch(st: Step, a: Actor) { st == FailNext(a) || st == FinishBatch(a) }

  /** A thread that took the queue away fails it job by job and is done with it. */
  lemma {:induction false} BatchFinishes(s: State, a: Actor) returns (steps: seq<Step>, t: State)
    requires Inv(s) && Failing(s, a)
    ensures Run(s, steps) == Some(t) && Inv(t) && |steps| == |s.core.batches[a]| + 1
    ensures forall st <- steps :: FailsBatch(st, a)
    ensures t.core.batches == s.core.batches - {a} && t.core.lifecycle == s.core.lifecycle
    ensures t.core.worker == if a == WorkerThread then Finished(Panicked) else s.core.worker
    ensures a.Caller? ==> Phase(t, a.call, Returned(Failed(WorkerPanicked)))
    decreases |s.core.batches[a]|
  {
    hide Inv, Apply, Enabled, Run, Phase;
    if s.core.batches[a] == [] {
      FinishFrame(s, a);
      steps, t := [FinishBatch(a)], Apply(s, FinishBatch(a));
      StepKeepsInv(s, FinishBatch(a));
      RunFrom(s, FinishBatch(a), []);
    } else {
      FirstIsAJob(s, a);
      FailNextFrame(s, a);
      StepKeepsInv(s, FailNext(a));
      var rest;
      rest, t := BatchFinishes(Apply(s, FailNext(a)), a);
      assert s.core.batches[a := s.core.batches[a][1..]] - {a} == s.core.batches - {a};
      RunFrom(s, FailNext(a), rest);
      steps := [FailNext(a)] + rest;
    }
  }

  // ---- After a panic ----

  // The steps of the worker from its panic to its end.
  predicate Unwinds(st: Step) { st == Transition || st == FailCurrentJob || FailsBatch(st, WorkerThread) }

  lemma UnwindingGoesOn(s: State)
    requires Inv(s) && s.core.worker.Unwinding?
    ensures Enabled(s, Transition)
    ensures var u := Apply(s, Transition);
            Enabled(u, FailCurrentJob) && Failing(Apply(u, FailCurrentJob), WorkerThread)
            && Apply(u, FailCurrentJob).core.lifecycle == Panicked
  {
    hide Order, Calls, Permits, JobOk;
    assert s.core.worker.current.Some? ==> HasCurrent(s.core.worker);
  }

  /** Whatever it held, a worker that has panicked fails it by its own steps and ends Panicked. */
  lemma PanicEndsWorker(s: State) returns (steps: seq<Step>, t: State)
    requires Inv(s) && s.core.worker.Unwinding?
    ensures Run(s, steps) == Some(t) && (forall st <- steps :: Unwinds(st))
    ensures t.core.worker == Finished(Panicked) && t.core.lifecycle == Panicked && WorkerThread !in t.core.batches
  {
    UnwindingGoesOn(s);
    var u := Apply(s, Transition);
    var v := Apply(u, FailCurrentJob);
    StepKeepsInv(s, Transition);
    StepKeepsInv(u, FailCurrentJob);
    hide Inv, Apply, Enabled, Failing, Run;
    var rest;
    rest, t := BatchFinishes(v, WorkerThread);
    RunFrom(u, FailCurrentJob, rest);
    RunFrom(s, Transition, [FailCurrentJob] + rest);
    steps := [Transition] + ([FailCurrentJob] + rest);
  }

  // ---- After the end ----

  predicate Pending(p: CallPhase) { !(p.Returned? || p.Abandoned?) }

  // The steps of one call.
  predicate OwnStep(st: Step, c: CallId) {
    st in {AcquireClosed(c), Observe(c), Admit(c), Respond(c)} || FailsBatch(st, Caller(c))
  }

  predicate Done(s: State, c: CallId) { c in s.calls && s.calls[c].Returned? }

  /** Once the worker has ended, every call that has not returned does so by its own steps, whatever it
      was waiting for: a permit, the lock, or the answer to its job, which it has by EndedMeansAnswered. */
  lemma CallReturns(s: State, c: CallId) returns (steps: seq<Step>, t: State)
    requires Inv(s) && s.core.worker.Finished? && c in s.calls && Pending(s.calls[c])
    requires s.calls[c].Awaiting? ==> Answered(s, c)
    ensures Run(s, steps) == Some(t) && (forall st <- steps :: OwnStep(st, c)) && Done(t, c)
  {
    match s.calls[c]
    case Waiting =>
      WaitingGoesOn(s, c);
      var u := Apply(s, AcquireClosed(c));
      StepKeepsInv(s, AcquireClosed(c));
      hide Inv, Apply, Enabled, Run;
      var rest;
      rest, t := RefusedReturns(u, c);
      RunFrom(s, AcquireClosed(c), rest);
      steps := [AcquireClosed(c)] + rest;
    case Refused =>
      hide Inv;
      steps, t := RefusedReturns(s, c);
    case Holding =>
      HoldingGoesOn(s, c);
      hide Inv;
      steps, t := AfterLock(s, Admit(c), c);
    case Terminalizing(_) =>
      assert Failing(s, Caller(c));
      hide Inv;
      steps, t := BatchFinishes(s, Caller(c));
    case Awaiting =>
      steps, t := [Respond(c)], Apply(s, Respond(c));
      RunFrom(s, Respond(c), []);
      hide Inv, Run;
  }

  lemma WaitingGoesOn(s: State, c: CallId)
    requires Inv(s) && s.core.worker.Finished? && Phase(s, c, Waiting)
    ensures Enabled(s, AcquireClosed(c)) && Phase(Apply(s, AcquireClosed(c)), c, Refused)
  {
    hide Order, Held, Jobs, Calls, Permits;
  }

  lemma HoldingGoesOn(s: State, c: CallId)
    requires Inv(s) && s.core.worker.Finished? && Phase(s, c, Holding)
    ensures Enabled(s, Admit(c))
    ensures var t := Apply(s, Admit(c)); Done(t, c) || (Phase(t, c, Terminalizing(true)) && Failing(t, Caller(c)))
  {
    hide Order, Held, Jobs, Calls, Permits;
  }

  lemma RefusedReturns(s: State, c: CallId) returns (steps: seq<Step>, t: State)
    requires Inv(s) && Phase(s, c, Refused)
    ensures Run(s, steps) == Some(t) && (forall st <- steps :: OwnStep(st, c)) && Done(t, c)
  {
    steps, t := AfterLock(s, Observe(c), c);
  }

  // A call that has looked at the lock either returns, or fails the batch it took and then returns.
  lemma AfterLock(s: State, st: Step, c: CallId) returns (steps: seq<Step>, t: State)
    requires Inv(s) && Enabled(s, st) && OwnStep(st, c)
    requires Done(Apply(s, st), c) || Failing(Apply(s, st), Caller(c))
    ensures Run(s, steps) == Some(t) && (forall x <- steps :: OwnStep(x, c)) && Done(t, c)
  {
    var u := Apply(s, st);
    StepKeepsInv(s, st);
    hide Inv, Apply, Enabled, Run;
    if Done(u, c) {
      RunFrom(s, st, []);
      steps, t := [st], u;
    } else {
      var rest;
      rest, t := BatchFinishes(u, Caller(c));
      RunFrom(s, st, rest);
      steps := [st] + rest;
    }
  }
}
